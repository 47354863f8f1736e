/**
 * The language-model completion service as the pipeline sees it: a prompt
 * goes in, and either text comes back or the call fails. The service itself
 * (provider choice, prompt templating, network) is a parameter of the model.
 */
module Completion {

  /** The variables each of the two prompt templates is filled with. */
  datatype Prompt =
    | IntentPrompt(context: string, query: string)
    | SummaryPrompt(query: string, intentType: string, primarySystem: string, resultsDetail: string)

  /** A completion: its text, or a failure (timeout, provider error). */
  datatype Reply = Failed | Text(content: string)
}
