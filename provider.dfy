/** The observable contract of the remote embedding and generation calls of
    `services/gemini.ts`. The remote service itself is a parameter: what it answers for a
    text is an `EmbedReply` or a `GenReply`. */
module Provider {
  import opened Text
  import opened Types

  /** What the embedding endpoint yields for one text: its vector (an absent vector in
      the response reads as the empty one), or a thrown error. */
  datatype EmbedReply = Embedded(values: seq<real>) | EmbedFailed

  /** The embedding service, as a function of the text sent to it. */
  type EmbeddingProvider = string -> EmbedReply

  /** `getEmbedding(text)`: blank text is never sent and yields `[]`; a failed call yields `[]`. */
  function GetEmbedding(provider: EmbeddingProvider, text: string): (e: seq<real>)
    ensures Trim(text) == "" ==> e == []
    ensures Trim(text) != "" && provider(text).EmbedFailed? ==> e == []
    ensures Trim(text) != "" && provider(text).Embedded? ==> e == provider(text).values
  {
    if Trim(text) == "" then []
    else match provider(text)
      case Embedded(v) => v
      case EmbedFailed => []
  }

  const FAST_MODEL := "gemini-2.5-flash"
  const SMART_MODEL := "gemini-3-pro-preview"

  /** What the generation endpoint yields for one prompt: a response whose `text` may be
      absent, or a thrown error. */
  datatype GenReply = Generated(text: Option<string>) | GenerationFailed

  const ERROR_OPENING := "[SYSTEM ERROR]: Could not generate response using model "
  const ERROR_ADVICE := ". Please check API Key or Quota."

  /** The diagnostic `generateText` returns instead of throwing. */
  function ErrorText(model: string): string {
    ERROR_OPENING + model + ERROR_ADVICE
  }

  /** `generateText(model, prompt)`: the response text (`''` when absent), or the
      diagnostic string when the call fails. It never throws. */
  function GenerateText(model: string, reply: GenReply): (t: string)
    ensures reply.GenerationFailed? ==> t == ErrorText(model) && t != ""
    ensures reply.Generated? && reply.text.Some? ==> t == reply.text.value
    ensures reply == Generated(None) ==> t == ""
  {
    match reply
    case Generated(Some(t)) => t
    case Generated(None) => ""
    case GenerationFailed => ErrorText(model)
  }
}
