# Ollama search action, modelled in Dafny

This project models the two Robusta actions of `ollama_robusta_actions/ollama.py`.

- `show_ollama_search` is a cache-aside executor. It looks a search term up in a
  module-level LRU cache. On a miss it asks an Ollama backend and caches the
  answer. It builds a list of answers and turns it into a finding that it adds
  to the event, unless an exception is propagating.
- `ollama_enricher` adds an "Ask Ollama" button to a named alert. The button
  runs `show_ollama_search` for that alert name.

Modules:

- `OllamaTypes` (`ollama_types.dfy`): the action parameters, findings and
  blocks, and `BackendOutcome`. That is what one `client.chat` call can do:
  raise (`Fail`), return a falsy response (`Falsy`), or return content with an
  optional total token count (`Ok`).
- `OllamaSearch` (`ollama_search.dfy`): one run as a function, `Search`. It maps
  the starting cache, the parameters, the backend outcome and the formatted
  elapsed time to a `Run`. A `Run` records whether the backend was called, the
  new cache, the answer list, and whether the run added a finding or raised.
  The module also holds the text pieces (separator, footer, error line, title,
  "Sorry" text, join) and the lemmas about one run and about sequences of runs.
- `OllamaExecutor` (`ollama_executor.dfy`): the imperative side. The class
  `OllamaActions` holds the shared cache as a `map`. Its method
  `ShowOllamaSearch` builds the answer list by successive appends, updates the
  cache in place and adds the finding to an `Event` object. Its postcondition
  ties the new state and its outputs to `Search`.
- `OllamaEnricher` (`ollama_enricher.dfy`): the alert-name guard and the button
  the enricher attaches.
- `Decimal` (`decimal.dfy`): Python's decimal rendering of the token count,
  with its inverse.

Behaviours of the code that the model keeps:

- A failing backend call is caught, recorded as an error line and re-raised.
  The re-raise at line 68 happens before lines 70-87, so no finding is added.
- On a falsy response nothing is cached, and the separator is appended. The
  footer then reads `time_taken`, which was never assigned, so an
  `UnboundLocalError` is caught, recorded and re-raised. No finding is added.
- The cache only ever receives one-element lists. So on every run reachable
  from the empty cache, a finding is built from a non-empty answer list, and
  the branch that writes the "Sorry" text is never taken (`SorryUnreachable`).

## Model

| member | source | states |
|---|---|---|
| `OllamaSearch.Search` | ollama_robusta_actions/ollama.py:36-87 | The backend is called exactly on a miss. A hit answers the cached list verbatim and leaves the cache alone, with no separator or footer. A miss with a truthy response caches exactly `[content]` and answers `[content, separator, footer]`. A failing or falsy call leaves the cache unchanged, records the error line last and raises, with no finding. No other key changes. A finding, when added, has the title `Ollama (<model>) Results`, the Prometheus source and the aggregation key `Ollama Wisdom`. It has one markdown block: the answers joined with `"\n"`, or `Sorry, Ollama doesn't know anything about "<term>"` when there are none. One-element entries stay one-element entries. |
| `OllamaSearch.FooterRoundTrip` | ollama_robusta_actions/ollama.py:63 | The footer line can be parsed back into exactly the elapsed-time text and the token count it reports. |
| `OllamaSearch.SuccessBody` | ollama_robusta_actions/ollama.py:56-77 | After a successful miss, the body is the content, a newline, the separator, a newline and the footer. Its footer reads back as the elapsed time and the reported token count, or 0 when the response reports none. |
| `OllamaSearch.ReplayKeepsSingleEntries` | ollama_robusta_actions/ollama.py:38-59 | Every sequence of runs, raising or not, keeps every cache entry a one-element list. |
| `OllamaSearch.SorryUnreachable` | ollama_robusta_actions/ollama.py:76-85 | On any run from a cache reached from the empty one, a finding is built only from a non-empty answer list. So its body is the joined answers, and the branch that writes the "Sorry" text is never taken. |
| `OllamaSearch.SecondSearchHits` | ollama_robusta_actions/ollama.py:38-63 | After a successful run for a term, a second run for the same term does not call the backend and leaves the cache unchanged. It answers `[content]` alone, with no second separator or footer, and its body is the content. |
| `OllamaSearch.TrailingDigitCount` | ollama_robusta_actions/ollama.py:63 | Part of the footer reader that `FooterRoundTrip` inverts the line-63 footer with; the source has no such reader. The count it returns covers only digits at the end of the text and stops at a non-digit, which is where the footer's token count sits. |
| `Decimal.NatToString` | ollama_robusta_actions/ollama.py:63 | The rendered token count is non-empty, all digits, and has no leading zero unless the count is 0. |
| `Decimal.DecimalRoundTrip` | ollama_robusta_actions/ollama.py:63 | Reading the rendered token count back gives the count. |
| `Decimal.NatToStringInjective` | ollama_robusta_actions/ollama.py:63 | Different token counts render differently. |
| `OllamaExecutor.OllamaActions.constructor` | ollama_robusta_actions/ollama.py:9-10 | The module cache starts empty, with capacity 100, and satisfies the one-element-entry invariant. |
| `OllamaExecutor.OllamaActions.ShowOllamaSearch` | ollama_robusta_actions/ollama.py:27-88 | Run imperatively by appends, the action's outputs match `Search` on the old cache. These are whether the backend was called, the answers and the propagated exception. The new cache is `Search`'s cache, the event gains exactly the finding `Search` adds (or nothing when it raises), and the one-element-entry invariant is kept. Because of that invariant, whenever nothing is raised the answers are non-empty and the finding just added shows them joined with `"\n"`. |
| `OllamaExecutor.Event.AddFinding` | ollama_robusta_actions/ollama.py:87 | Adding a finding appends it to the event's findings. |
| `OllamaEnricher.ButtonLabelRoundTrip` | ollama_robusta_actions/ollama.py:103 | A button label `Ask Ollama: <name>` reads back as exactly `<name>`. |
| `OllamaEnricher.OllamaEnricher` | ollama_robusta_actions/ollama.py:95-114 | Nothing is added exactly when `alertname` is missing or empty. Otherwise exactly one callback block with exactly one button is added. The button's label reads back as the alert name, and it runs `show_ollama_search` with `search_term` set to that name and the same model and host. |

## Left out

- LRU recency and eviction (`cachetools.LRUCache`): the cache is an unbounded `map`, and its capacity of 100 appears only as a constant. The invariant that every entry is one element long would survive any eviction, because eviction only removes entries.
- The Ollama client and its `chat` network call: every possible result of one call is a `BackendOutcome` parameter. An exception raised while reading a truthy response (a missing `message` key, say) happens before the cache write, so it behaves as `Fail`. Constructing the client (line 32) is outside the `try` and is not modelled.
- The prompt messages: they are static text passed to the backend.
- `time.time()` and the `:.2f` float formatting: the elapsed time is an opaque, already formatted string.
- The `UnboundLocalError` message: its wording depends on the Python version. The model uses the Python 3.11 wording as a constant.
- Exceptions are modelled by their message text only, not as objects.
- Logging calls: they are side effects only.
- Robusta's `Finding`, `MarkdownBlock`, `CallbackBlock`, `CallbackChoice`, `@action` and the pydantic parameter classes: they are plain datatypes here. The parameter defaults (`llama3`, `http://localhost:11434`) are not modelled, because every run here receives its parameters explicitly. `FindingSource` has only the one value the code uses.
- The aliasing between the answer list and the cached list on a hit: no path appends to the answer list after a hit, so value semantics shows the same behaviour.
- Concurrency: the code takes no lock, and runs are modelled one at a time.
