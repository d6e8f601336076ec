/** The values that ollama.py exchanges with its host and its backend:
    action parameters, findings and their blocks, and what a chat call can do. */
module OllamaTypes {

  datatype Option<+T> = None | Some(value: T)

  /** `maxsize` of the module-level LRU cache. */
  const CacheSize: nat := 100

  /** OllamaServerParams: which model to ask, on which host. */
  datatype ServerParams = ServerParams(model: string, host: string)

  /** OllamaParams: the server parameters plus the search term. */
  datatype SearchParams = SearchParams(searchTerm: string, model: string, host: string)

  /** Actions a callback button can trigger. */
  datatype Action = ShowOllamaSearchAction

  /** A button choice: the action to run and the parameters to run it with. */
  datatype CallbackChoice = CallbackChoice(action: Action, actionParams: SearchParams)

  /** The renderable blocks used here: a markdown text, or a set of buttons
      keyed by their labels. */
  datatype Block =
    | Markdown(text: string)
    | Callback(choices: map<string, CallbackChoice>)

  datatype FindingSource = Prometheus

  /** A finding; each enrichment is the list of blocks one `add_enrichment`
      call attached. */
  datatype Finding = Finding(
    title: string,
    source: FindingSource,
    aggregationKey: string,
    enrichments: seq<seq<Block>>)

  /** What one `client.chat` call does: raise with a message, return a
      falsy response, or return a response with its content and, when the
      backend reports it, a total token count. */
  datatype BackendOutcome =
    | Fail(message: string)
    | Falsy
    | Ok(content: string, totalTokens: Option<nat>)

  /** The module-level cache as a value: search term to cached answers. */
  type Cache = map<string, seq<string>>
}
