/** The language-model endpoint both adapters call (`AsyncGroq.chat.completions.create`,
    `GenerativeModel.generate_content`), as an oracle: every request is logged, and the
    answers are a script fixed when the client is built. An exhausted script answers with a
    failure. The prompt wording is left out; a prompt records what it interpolates. */
module Provider {
  import opened Models
  import opened Schemas

  /** What the prompt builders put in a prompt. */
  datatype Prompt =
    | InitialPrompt(request: RoutineRequest)
    | ModificationPrompt(current: Routine, userRequest: string)
    | ExplanationPrompt(userRequest: string)

  /** The reply text, or a failure of the call itself (network, quota, a blocked answer,
      a reply without text). */
  datatype Reply = Completed(text: string) | ProviderFailed

  /** The first scripted answer, or a failure when none is left. */
  function NextReply(script: seq<Reply>): (r: Reply)
    ensures script != [] ==> r == script[0]
    ensures script == [] ==> r == ProviderFailed
  {
    if script == [] then ProviderFailed else script[0]
  }

  /** The script after one call. */
  function Rest(script: seq<Reply>): seq<Reply> {
    if script == [] then [] else script[1..]
  }

  class CompletionClient {
    /** Every prompt sent so far, in order. */
    var sent: seq<Prompt>
    /** The answers still to come. */
    var script: seq<Reply>

    constructor (script: seq<Reply>)
      ensures this.sent == [] && this.script == script
    {
      this.sent := [];
      this.script := script;
    }

    /** One call to the endpoint. */
    method Complete(prompt: Prompt) returns (reply: Reply)
      modifies this
      ensures sent == old(sent) + [prompt]
      ensures reply == NextReply(old(script))
      ensures script == Rest(old(script))
    {
      sent := sent + [prompt];
      reply := NextReply(script);
      if script != [] {
        script := script[1..];
      }
    }
  }
}
