/** `rag_chat_stream` and `rag_generate_stream`: the RAG answer re-emitted as
    newline-delimited JSON units of two words each, then one final unit. The
    30 ms pauses and the `created_at` clock readings are not modelled. */
module Streaming {
  import opened Wrappers
  import opened PyText
  import opened PyValues
  import opened Responses

  /** Words per stream unit. */
  const UnitWords: nat := 2

  /** The unit texts for `words`: `" ".join(words[i:i+2])`, plus one space when
      more words follow. */
  function Units(words: seq<string>): (us: seq<string>)
    ensures |us| == (|words| + 1) / 2
  {
    if |words| == 0 then []
    else
      var unit := Join(Prefix(words, UnitWords), " ");
      if |words| <= UnitWords then [unit] else [unit + " "] + Units(words[UnitWords..])
  }

  /** Re-joined, the units give the words separated by single spaces. */
  lemma {:induction false} UnitsConcat(words: seq<string>)
    ensures Concat(Units(words)) == Join(words, " ")
  {
    if |words| > UnitWords {
      var us := Units(words);
      UnitsConcat(words[2..]);
      assert Prefix(words, 2) == [words[0], words[1]];
      assert Join(Prefix(words, 2), " ") == words[0] + " " + words[1];
      assert Join(words, " ") == words[0] + " " + Join(words[1..], " ");
      assert words[1..][1..] == words[2..];
      assert Join(words[1..], " ") == words[1] + " " + Join(words[2..], " ");
      assert Concat(us) == us[0] + Concat(us[1..]);
    } else if |words| > 0 {
      var us := Units(words);
      assert Prefix(words, 2) == words;
      assert Concat(us) == us[0] + Concat(us[1..]);
    }
  }

  /** Unit `k` holds words `2k` and `2k + 1` (when present); every unit but the
      last ends with exactly one space, and the last ends with a word. */
  lemma {:induction false} UnitShape(words: seq<string>, k: nat)
    requires forall i :: 0 <= i < |words| ==> IsWord(words[i])
    requires k < |Units(words)|
    ensures 2 * k < |words|
    ensures k < |Units(words)| - 1 ==>
      2 * k + 1 < |words| && Units(words)[k] == words[2 * k] + " " + words[2 * k + 1] + " "
    ensures k == |Units(words)| - 1 && 2 * k + 1 < |words| ==>
      Units(words)[k] == words[2 * k] + " " + words[2 * k + 1]
    ensures k == |Units(words)| - 1 && 2 * k + 1 == |words| ==> Units(words)[k] == words[2 * k]
  {
    if k > 0 {
      UnitShape(words[2..], k - 1);
      assert words[2..][2 * (k - 1)] == words[2 * k];
      if 2 * (k - 1) + 1 < |words[2..]| {
        assert words[2..][2 * (k - 1) + 1] == words[2 * k + 1];
      }
    } else if |words| > 1 {
      assert Prefix(words, 2) == [words[0], words[1]];
      assert Join(Prefix(words, 2), " ") == words[0] + " " + words[1];
    } else {
      assert Prefix(words, 2) == [words[0]];
    }
  }

  // ---------------------------------------------------------------------------
  // The two streams
  // ---------------------------------------------------------------------------

  /** The closing statistics: prompt and answer word counts. */
  function FinalStats(prompt: string, answer: string): (s: Stats)
    ensures s.promptEvalCount == |Split(prompt)| && s.evalCount == |Split(answer)|
  {
    ReplyStats(|Split(prompt)|, answer)
  }

  /** `rag_chat_stream`: `outcome` is what `process_with_rag(question)` returned or raised. */
  function ChatStream(question: string, model: string, outcome: Result<string, PyError>): (s: seq<ChatResponse>)
    ensures |s| > 0 && s[|s| - 1].done && s[|s| - 1].model == model
    ensures forall i :: 0 <= i < |s| - 1 ==> !s[i].done && s[i].stats.None?
    ensures outcome.Err? ==> s == [ChatResponse(model, ChatMessage(Assistant, ErrorPrefix + outcome.error.Str()), true, None)]
    ensures outcome.Ok? ==> |s| == (|Split(outcome.value)| + 1) / 2 + 1
    ensures outcome.Ok? ==> s[|s| - 1] == ChatResponse(model, ChatMessage(Assistant, ""), true,
      Some(FinalStats(question, outcome.value)))
  {
    match outcome
    case Err(e) => [ChatResponse(model, ChatMessage(Assistant, ErrorPrefix + e.Str()), true, None)]
    case Ok(answer) =>
      var us := Units(Split(answer));
      seq(|us|, i requires 0 <= i < |us| => ChatResponse(model, ChatMessage(Assistant, us[i]), false, None))
      + [ChatResponse(model, ChatMessage(Assistant, ""), true, Some(FinalStats(question, answer)))]
  }

  /** `rag_generate_stream`: the same units in the `response` field; the final unit
      also carries an empty `context`. */
  function GenerateStream(prompt: string, model: string, outcome: Result<string, PyError>): (s: seq<GenerateResponse>)
    ensures |s| > 0 && s[|s| - 1].done && s[|s| - 1].model == model
    ensures forall i :: 0 <= i < |s| - 1 ==> !s[i].done && s[i].stats.None? && s[i].context.None?
    ensures outcome.Err? ==> s == [GenerateResponse(model, ErrorPrefix + outcome.error.Str(), true, None, None)]
    ensures outcome.Ok? ==> |s| == (|Split(outcome.value)| + 1) / 2 + 1
    ensures outcome.Ok? ==> s[|s| - 1] == GenerateResponse(model, "", true, Some([]),
      Some(FinalStats(prompt, outcome.value)))
  {
    match outcome
    case Err(e) => [GenerateResponse(model, ErrorPrefix + e.Str(), true, None, None)]
    case Ok(answer) =>
      var us := Units(Split(answer));
      seq(|us|, i requires 0 <= i < |us| => GenerateResponse(model, us[i], false, None, None))
      + [GenerateResponse(model, "", true, Some([]), Some(FinalStats(prompt, answer)))]
  }

  /** The texts of the chat units, in order. */
  function ChatTexts(s: seq<ChatResponse>): (ts: seq<string>)
    ensures |ts| == |s|
  {
    seq(|s|, i requires 0 <= i < |s| => s[i].message.content)
  }

  /** The texts of the generate units, in order. */
  function GenerateTexts(s: seq<GenerateResponse>): (ts: seq<string>)
    ensures |ts| == |s|
  {
    seq(|s|, i requires 0 <= i < |s| => s[i].response)
  }

  /** A client that appends the streamed chat texts receives the answer with its
      whitespace normalised: the same words, single-spaced, and nothing else. */
  lemma ChatStreamText(question: string, model: string, answer: string)
    ensures var s := ChatStream(question, model, Ok(answer));
      Concat(ChatTexts(s)) == Join(Split(answer), " ")
      && Split(Concat(ChatTexts(s))) == Split(answer)
  {
    var s := ChatStream(question, model, Ok(answer));
    var us := Units(Split(answer));
    assert ChatTexts(s) == us + [""];
    ConcatAppend(us, [""]);
    assert Concat([""]) == "" + Concat<char>([]);
    UnitsConcat(Split(answer));
    NormaliseIdempotent(answer);
  }

  /** The generate stream is the chat stream unit for unit: same texts, the same
      `done` flags and statistics, so a generate client also receives the answer
      with its whitespace normalised. */
  lemma StreamsAgree(prompt: string, model: string, outcome: Result<string, PyError>)
    ensures GenerateTexts(GenerateStream(prompt, model, outcome))
      == ChatTexts(ChatStream(prompt, model, outcome))
    ensures var g := GenerateStream(prompt, model, outcome);
      var c := ChatStream(prompt, model, outcome);
      forall i :: 0 <= i < |g| ==> g[i].done == c[i].done && g[i].stats == c[i].stats
    ensures outcome.Ok? ==>
      Concat(GenerateTexts(GenerateStream(prompt, model, outcome))) == Join(Split(outcome.value), " ")
  {
    if outcome.Ok? {
      ChatStreamText(prompt, model, outcome.value);
    }
  }
}
