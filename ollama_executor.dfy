/** The stateful side of `show_ollama_search`: the module-level cache that
    runs share, and the event that collects the findings they add. */
module OllamaExecutor {
  import opened OllamaTypes
  import opened OllamaSearch

  /** The host's event; `add_finding` appends to its findings. */
  class Event {
    var findings: seq<Finding>

    constructor ()
      ensures findings == []
    {
      findings := [];
    }

    method AddFinding(f: Finding)
      modifies this
      ensures findings == old(findings) + [f]
    {
      findings := findings + [f];
    }
  }

  /** The module state of ollama.py: the shared `lru_cache`. */
  class OllamaActions {
    var cache: Cache
    const maxsize: nat

    /** Every cached value is a one-element list. */
    ghost predicate Valid()
      reads this
    {
      SingleEntries(cache)
    }

    constructor ()
      ensures Valid() && cache == map[] && maxsize == CacheSize
    {
      cache := map[];
      maxsize := CacheSize;
    }

    /** One run of the action: looks the term up, on a miss consumes the
        backend outcome, builds the answer list step by step and, unless an
        exception is propagating, adds the finding to `event`. Returns
        whether the backend was called, the answer list and the message of
        the exception that propagates, if any. */
    method ShowOllamaSearch(event: Event, params: SearchParams, backend: BackendOutcome, elapsed: string)
      returns (called: bool, answers: seq<string>, raised: Option<string>)
      requires Valid()
      modifies this, event
      ensures Valid()
      ensures var r := Search(old(cache), params, backend, elapsed);
        called == r.backendCalled && cache == r.cache && answers == r.answers &&
        raised == (if r.exit.Raised? then Some(r.exit.error) else None) &&
        event.findings == old(event.findings) + (if r.exit.FindingAdded? then [r.exit.finding] else [])
      // the invariant pays off: the "Sorry" branch is never taken, so the
      // finding shows the answers joined
      ensures raised.None? ==>
        (|answers| > 0 && event.findings[|event.findings| - 1].enrichments[0][0].text == Join(answers, "\n"))
    {
      var term := params.searchTerm;
      called, answers, raised := false, [], None;
      if term in cache {
        answers := cache[term];
      } else {
        called := true;
        match backend {
          case Fail(message) =>
            answers := answers + [ErrorLine(message)];
            raised := Some(message);
          case Falsy =>
            answers := answers + [Separator];
            // the footer reads `time_taken`, which this path never assigned
            answers := answers + [ErrorLine(UnboundTimeTaken)];
            raised := Some(UnboundTimeTaken);
          case Ok(content, reported) =>
            var totalTokens := TokensUsed(reported);
            cache := cache[term := [content]];
            answers := answers + [content];
            answers := answers + [Separator];
            answers := answers + [Footer(elapsed, totalTokens)];
        }
      }
      if raised.None? {
        var finding := MakeFinding(params.model, term, answers);
        event.AddFinding(finding);
      }
    }
  }
}
