/** What one run of the `show_ollama_search` action does, as a function of
    the cache it starts from, its parameters, what the backend does and the
    (already formatted) elapsed time; and the text pieces it is built from. */
module OllamaSearch {
  import opened OllamaTypes
  import opened Decimal

  const Separator: string := "\n\n ---"
  const ErrorPrefix: string := "Error calling Ollama client: "
  const AggregationKey: string := "Ollama Wisdom"

  const FooterHead: string := "\n\n | Time taken: "
  const FooterMid: string := " seconds | Total tokens used: "
  const FooterTail: string := " |"

  /** The message of the UnboundLocalError raised when the footer reads
      `time_taken` on a path that never assigned it (Python 3.11 wording). */
  const UnboundTimeTaken: string :=
    "cannot access local variable 'time_taken' where it is not associated with a value"

  /** `res.get('usage', {}).get('total_tokens', 0)`. */
  function TokensUsed(reported: Option<nat>): nat {
    match reported
    case Some(n) => n
    case None => 0
  }

  /** The timing and usage line appended after a backend answer. */
  function Footer(elapsed: string, tokens: nat): string {
    FooterHead + elapsed + FooterMid + NatToString(tokens) + FooterTail
  }

  /** The answer line recorded when the executor catches an exception. */
  function ErrorLine(message: string): string {
    ErrorPrefix + message
  }

  /** Python's `sep.join(parts)`. */
  function Join(parts: seq<string>, sep: string): string {
    if |parts| == 0 then ""
    else if |parts| == 1 then parts[0]
    else parts[0] + sep + Join(parts[1..], sep)
  }

  function Title(model: string): string {
    "Ollama (" + model + ") Results"
  }

  function Sorry(searchTerm: string): string {
    "Sorry, Ollama doesn't know anything about \"" + searchTerm + "\""
  }

  /** The markdown text of the finding: the answers one per line, or the
      "Sorry" text when there are none. */
  function Body(searchTerm: string, answers: seq<string>): string {
    if |answers| > 0 then Join(answers, "\n") else Sorry(searchTerm)
  }

  /** The finding built from the answers: fixed title pattern, source and
      aggregation key, and one enrichment holding one markdown block. */
  function MakeFinding(model: string, searchTerm: string, answers: seq<string>): Finding {
    Finding(Title(model), Prometheus, AggregationKey, [[Markdown(Body(searchTerm, answers))]])
  }

  /** How a run ends: a finding added to the event, or an exception
      propagated to the host (and then no finding is added). */
  datatype Exit = FindingAdded(finding: Finding) | Raised(error: string)

  /** Everything one run produces: whether the backend was called, the
      cache afterwards, the local answer list and how the run ended. */
  datatype Run = Run(backendCalled: bool, cache: Cache, answers: seq<string>, exit: Exit)

  /** Every cached value is a one-element list. */
  ghost predicate SingleEntries(cache: Cache) {
    forall k :: k in cache ==> |cache[k]| == 1
  }

  /** One run of `show_ollama_search`. */
  function Search(cache: Cache, params: SearchParams, backend: BackendOutcome, elapsed: string): (r: Run)
    // the backend is called exactly on a cache miss
    ensures r.backendCalled <==> params.searchTerm !in cache
    // a hit answers the cached list verbatim, with no separator or footer
    ensures params.searchTerm in cache ==>
      r.cache == cache && r.answers == cache[params.searchTerm] && r.exit.FindingAdded?
    // a miss with a truthy response caches exactly [content] under the term
    ensures params.searchTerm !in cache && backend.Ok? ==>
      r.cache == cache[params.searchTerm := [backend.content]] && r.exit.FindingAdded? &&
      r.answers == [backend.content, Separator, Footer(elapsed, TokensUsed(backend.totalTokens))]
    // a failing or falsy call leaves the cache alone and raises
    ensures params.searchTerm !in cache && !backend.Ok? ==> r.cache == cache && r.exit.Raised?
    ensures params.searchTerm !in cache && backend.Fail? ==>
      r.answers == [ErrorLine(backend.message)] && r.exit == Raised(backend.message)
    ensures params.searchTerm !in cache && backend.Falsy? ==>
      r.answers == [Separator, ErrorLine(UnboundTimeTaken)] && r.exit == Raised(UnboundTimeTaken)
    // no key other than the search term ever changes
    ensures forall k :: k != params.searchTerm ==>
      (k in r.cache <==> k in cache) && (k in cache ==> r.cache[k] == cache[k])
    // a raised run has recorded the error as its last answer
    ensures r.exit.Raised? ==> |r.answers| > 0 && r.answers[|r.answers| - 1] == ErrorLine(r.exit.error)
    // a finding, when added, has the fixed title pattern, source and
    // aggregation key, and one markdown block: the answers one per line,
    // or the "Sorry" text when there are none
    ensures r.exit.FindingAdded? ==>
      r.exit.finding.title == "Ollama (" + params.model + ") Results" &&
      r.exit.finding.source == Prometheus &&
      r.exit.finding.aggregationKey == "Ollama Wisdom" &&
      r.exit.finding.enrichments == [[Markdown(
        if |r.answers| > 0 then Join(r.answers, "\n")
        else "Sorry, Ollama doesn't know anything about \"" + params.searchTerm + "\"")]]
    ensures SingleEntries(cache) ==> SingleEntries(r.cache)
  {
    var term := params.searchTerm;
    if term in cache then
      Run(false, cache, cache[term], FindingAdded(MakeFinding(params.model, term, cache[term])))
    else
      match backend
      case Fail(message) =>
        Run(true, cache, [ErrorLine(message)], Raised(message))
      case Falsy =>
        Run(true, cache, [Separator, ErrorLine(UnboundTimeTaken)], Raised(UnboundTimeTaken))
      case Ok(content, reported) =>
        var answers := [content, Separator, Footer(elapsed, TokensUsed(reported))];
        Run(true, cache[term := [content]], answers, FindingAdded(MakeFinding(params.model, term, answers)))
  }

  /** One action invocation as the host issues it. */
  datatype Request = Request(params: SearchParams, backend: BackendOutcome, elapsed: string)

  /** The cache after a sequence of runs; a raised run does not stop later ones. */
  function Replay(cache: Cache, requests: seq<Request>): Cache
    decreases |requests|
  {
    if requests == [] then cache
    else
      var q := requests[0];
      Replay(Search(cache, q.params, q.backend, q.elapsed).cache, requests[1..])
  }

  /** Every cache reachable by runs keeps only one-element lists. */
  lemma {:induction false} ReplayKeepsSingleEntries(cache: Cache, requests: seq<Request>)
    requires SingleEntries(cache)
    ensures SingleEntries(Replay(cache, requests))
    decreases |requests|
  {
    if requests != [] {
      var q := requests[0];
      ReplayKeepsSingleEntries(Search(cache, q.params, q.backend, q.elapsed).cache, requests[1..]);
    }
  }

  /** On any run from a cache reachable from the empty one, a finding is
      built only from a non-empty answer list: its body is always the joined
      answers, and the branch that writes the "Sorry" text is never taken. */
  lemma SorryUnreachable(history: seq<Request>, params: SearchParams, backend: BackendOutcome, elapsed: string)
    ensures var r := Search(Replay(map[], history), params, backend, elapsed);
      r.exit.FindingAdded? ==>
        |r.answers| > 0 && r.exit.finding.enrichments[0][0].text == Join(r.answers, "\n")
  {
    ReplayKeepsSingleEntries(map[], history);
  }

  /** Splits a footer back into the elapsed-time text and the token count. */
  function ParseFooter(s: string): Option<(string, nat)> {
    match StripPrefix(s, FooterHead)
    case None => None
    case Some(afterHead) =>
      match StripSuffix(afterHead, FooterTail)
      case None => None
      case Some(inner) =>
        var d := TrailingDigitCount(inner);
        if d == 0 then None
        else
          match StripSuffix(inner[..|inner| - d], FooterMid)
          case None => None
          case Some(elapsed) => Some((elapsed, DecimalValue(inner[|inner| - d..])))
  }

  function StripPrefix(s: string, prefix: string): Option<string> {
    if |prefix| <= |s| && s[..|prefix|] == prefix then Some(s[|prefix|..]) else None
  }

  function StripSuffix(s: string, suffix: string): Option<string> {
    if |suffix| <= |s| && s[|s| - |suffix|..] == suffix then Some(s[..|s| - |suffix|]) else None
  }

  lemma StripPrefixOf(prefix: string, rest: string)
    ensures StripPrefix(prefix + rest, prefix) == Some(rest)
  {
  }

  lemma StripSuffixOf(rest: string, suffix: string)
    ensures StripSuffix(rest + suffix, suffix) == Some(rest)
  {
  }

  /** Length of the longest run of digits at the end of `s`. */
  function TrailingDigitCount(s: string): (n: nat)
    ensures n <= |s|
    ensures forall i :: |s| - n <= i < |s| ==> IsDigit(s[i])
    ensures n < |s| ==> !IsDigit(s[|s| - n - 1])
  {
    if s == [] || !IsDigit(s[|s| - 1]) then 0
    else TrailingDigitCount(s[..|s| - 1]) + 1
  }

  lemma {:induction false} TrailingDigitsAfter(x: string, digits: string)
    requires |x| > 0 && !IsDigit(x[|x| - 1]) && AllDigits(digits)
    ensures TrailingDigitCount(x + digits) == |digits|
    decreases |digits|
  {
    if digits != [] {
      var init := digits[..|digits| - 1];
      assert (x + digits)[..|x + digits| - 1] == x + init;
      TrailingDigitsAfter(x, init);
    }
  }

  /** The footer carries the elapsed time and the token count faithfully. */
  lemma FooterRoundTrip(elapsed: string, tokens: nat)
    ensures ParseFooter(Footer(elapsed, tokens)) == Some((elapsed, tokens))
  {
    var digits := NatToString(tokens);
    var front := elapsed + FooterMid;
    var inner := front + digits;
    assert Footer(elapsed, tokens) == FooterHead + (inner + FooterTail);
    StripPrefixOf(FooterHead, inner + FooterTail);
    StripSuffixOf(inner, FooterTail);
    TrailingDigitsAfter(front, digits);
    assert inner[..|inner| - |digits|] == front;
    assert inner[|inner| - |digits|..] == digits;
    StripSuffixOf(elapsed, FooterMid);
    DecimalRoundTrip(tokens);
  }

  /** A run that asked the backend successfully shows the content first and
      the footer last, and the footer reads back as the elapsed time and the
      reported token count, or zero when the response reports none. */
  lemma SuccessBody(cache: Cache, params: SearchParams, content: string, reported: Option<nat>, elapsed: string)
    requires params.searchTerm !in cache
    ensures var r := Search(cache, params, Ok(content, reported), elapsed);
      var body := r.exit.finding.enrichments[0][0].text;
      var tokens := if reported.Some? then reported.value else 0;
      var footer := Footer(elapsed, tokens);
      r.exit.FindingAdded? &&
      body == content + "\n" + Separator + "\n" + footer &&
      ParseFooter(body[|body| - |footer|..]) == Some((elapsed, tokens))
  {
    var footer := Footer(elapsed, TokensUsed(reported));
    var body := content + "\n" + Separator + "\n" + footer;
    assert Join([content, Separator, footer], "\n") == body by {
      assert [content, Separator, footer][1..] == [Separator, footer];
      assert [Separator, footer][1..] == [footer];
      assert Join([Separator, footer], "\n") == Separator + "\n" + footer;
    }
    assert body[|body| - |footer|..] == footer;
    FooterRoundTrip(elapsed, TokensUsed(reported));
  }

  /** Asking again for a term whose first run succeeded does not call the
      backend, and the finding shows the cached content alone, without a
      second separator or footer. */
  lemma SecondSearchHits(cache: Cache, params: SearchParams, content: string, reported: Option<nat>,
                         elapsed: string, again: SearchParams, backend: BackendOutcome, elapsedAgain: string)
    requires params.searchTerm !in cache
    requires again.searchTerm == params.searchTerm
    ensures var first := Search(cache, params, Ok(content, reported), elapsed);
      var second := Search(first.cache, again, backend, elapsedAgain);
      !second.backendCalled && second.cache == first.cache && second.answers == [content] &&
      second.exit.FindingAdded? && second.exit.finding.enrichments[0][0].text == content
  {
  }
}
