/** `ollama_enricher`: adds an "Ask Ollama" button to an alert that has a
    name, wired to run `show_ollama_search` for that name. */
module OllamaEnricher {
  import opened OllamaTypes

  const AlertNameLabel: string := "alertname"
  const ButtonPrefix: string := "Ask Ollama: "

  /** `labels.get("alertname", "")`. */
  function AlertName(labels: map<string, string>): string {
    if AlertNameLabel in labels then labels[AlertNameLabel] else ""
  }

  function ButtonLabel(alertName: string): string {
    ButtonPrefix + alertName
  }

  /** The alert name a button label was made for, if it is such a label. */
  function LabelAlertName(caption: string): Option<string> {
    if |caption| >= |ButtonPrefix| && caption[..|ButtonPrefix|] == ButtonPrefix
    then Some(caption[|ButtonPrefix|..])
    else None
  }

  /** A button label names its alert unambiguously. */
  lemma ButtonLabelRoundTrip(alertName: string)
    ensures LabelAlertName(ButtonLabel(alertName)) == Some(alertName)
  {
  }

  /** The blocks the enricher attaches to the alert in its one
      `add_enrichment` call, or None when it returns without adding any. */
  function OllamaEnricher(labels: map<string, string>, params: ServerParams): (added: Option<seq<Block>>)
    // nothing is added exactly when the alert has no name or an empty one
    ensures added.None? <==> (AlertNameLabel !in labels || labels[AlertNameLabel] == "")
    // otherwise one callback block with one button
    ensures added.Some? ==>
      |added.value| == 1 && added.value[0].Callback? && |added.value[0].choices| == 1
    // whose label reads back as the alert name, and which searches that
    // name with the same model and host
    ensures added.Some? ==> forall caption :: caption in added.value[0].choices ==>
      LabelAlertName(caption) == Some(labels[AlertNameLabel]) &&
      added.value[0].choices[caption] ==
        CallbackChoice(ShowOllamaSearchAction, SearchParams(labels[AlertNameLabel], params.model, params.host))
  {
    var alertName := AlertName(labels);
    if alertName == "" then None
    else
      ButtonLabelRoundTrip(alertName);
      var choice := CallbackChoice(ShowOllamaSearchAction, SearchParams(alertName, params.model, params.host));
      Some([Callback(map[ButtonLabel(alertName) := choice])])
  }
}
