/**
 * Choosing the model back end: a model name is classified into a family by a case-insensitive
 * substring test, and the family is looked up in a fixed table of providers.
 */
module ModelInterface {
  import opened Wrappers
  import opened Text

  /** The providers a family can map to. Their constructors are not modelled. */
  datatype Provider = Anthropic

  /** `model_map` */
  const ModelMap: map<string, Provider> := map["claude" := Anthropic]

  /** What a provider's constructor is called with: `model_map[name](api_url, api_key, model)`. */
  datatype ModelHandle = ModelHandle(
    provider: Provider, apiUrl: Option<string>, apiKey: Option<string>, model: string)

  datatype ModelError =
    | ModelRequired                  // ValueError("Model is required")
    | UnsupportedModel(model: string) // ValueError(f"Unsupported model: {model}")

  const ClaudeFamily: string := "claude"

  /** `classify_model_name(model)` */
  function ClassifyModelName(model: string): string {
    var name := Lower(model);
    if Contains(name, ClaudeFamily) then ClaudeFamily else name
  }

  /**
   * Every name mentioning "claude" in any case is the Claude family; any other name is itself,
   * lower-cased.
   */
  lemma ClassifyCases(model: string)
    ensures Contains(Lower(model), ClaudeFamily) ==> ClassifyModelName(model) == ClaudeFamily
    ensures !Contains(Lower(model), ClaudeFamily) ==> ClassifyModelName(model) == Lower(model)
    ensures ClassifyModelName(model) == Lower(ClassifyModelName(model))
  {
    assert Lower(ClaudeFamily) == ClaudeFamily;
    LowerIdempotent(model);
  }

  /** Classifying a classified name changes nothing. */
  lemma ClassifyIdempotent(model: string)
    ensures ClassifyModelName(ClassifyModelName(model)) == ClassifyModelName(model)
  {
    assert Lower(ClaudeFamily) == ClaudeFamily;
    ContainsItself(ClaudeFamily);
    LowerIdempotent(model);
  }

  /** The classification does not depend on the case of the name. */
  lemma ClassifyIgnoresCase(model: string)
    ensures ClassifyModelName(Lower(model)) == ClassifyModelName(model)
  {
    LowerIdempotent(model);
  }

  /** The families `model_map` knows are exactly the names that mention "claude" in some case. */
  lemma SupportedExactlyClaude(model: string)
    ensures ClassifyModelName(model) in ModelMap <==> Contains(Lower(model), ClaudeFamily)
  {
    if !Contains(Lower(model), ClaudeFamily) && Lower(model) == ClaudeFamily {
      ContainsItself(ClaudeFamily);
    }
  }

  /** `get_model(api_url, api_key, model)` */
  function GetModel(apiUrl: Option<string>, apiKey: Option<string>, model: Option<string>)
    : Result<ModelHandle, ModelError>
  {
    match model
    case None => Err(ModelRequired)
    case Some(m) =>
      var family := ClassifyModelName(m);
      if family in ModelMap then Ok(ModelHandle(ModelMap[family], apiUrl, apiKey, m))
      else Err(UnsupportedModel(m))
  }

  /**
   * A missing name is refused, a name is accepted exactly when it mentions "claude", and an
   * accepted name reaches the constructor as given, not lower-cased, with the url and the key.
   */
  lemma GetModelOutcome(apiUrl: Option<string>, apiKey: Option<string>, model: Option<string>)
    ensures model.None? ==> GetModel(apiUrl, apiKey, model) == Err(ModelRequired)
    ensures model.Some? ==>
      (GetModel(apiUrl, apiKey, model).Ok? <==> Contains(Lower(model.value), ClaudeFamily))
    ensures model.Some? && GetModel(apiUrl, apiKey, model).Ok? ==>
      GetModel(apiUrl, apiKey, model).value == ModelHandle(Anthropic, apiUrl, apiKey, model.value)
    ensures model.Some? && GetModel(apiUrl, apiKey, model).Err? ==>
      GetModel(apiUrl, apiKey, model).error == UnsupportedModel(model.value)
  {
    if model.Some? {
      SupportedExactlyClaude(model.value);
    }
  }
}
