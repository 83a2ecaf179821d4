/** The per-provider model tables and the lookup with its `"default"` fallback. */
module Models {
  import opened Wrappers

  const AnthropicModels: map<string, string> := map["default" := "claude-3-5-sonnet-20241022"]
  const OpenAIModels: map<string, string> := map["default" := "gpt-4o"]
  const GeminiModels: map<string, string> := map["default" := "gemini-2.0-flash"]

  /** `table.get(name, table["default"])` */
  function Lookup(table: map<string, string>, name: string): string
    requires "default" in table
  {
    if name in table then table[name] else table["default"]
  }

  /** The table of a known provider. */
  function TableOf(provider: string): Option<map<string, string>> {
    if provider == "anthropic" then Some(AnthropicModels)
    else if provider == "openai" then Some(OpenAIModels)
    else if provider == "gemini" then Some(GeminiModels)
    else None
  }

  /** `get_model(provider, name="default")`; an unknown provider is an error. */
  function GetModel(provider: string, name: string := "default"): (r: Result<string, string>)
    ensures r.Err? <==> TableOf(provider).None?
    ensures r.Err? ==> r.error == "Unknown provider: " + provider
    ensures r.Ok? ==> r.value in TableOf(provider).value.Values
  {
    if provider == "anthropic" then Ok(Lookup(AnthropicModels, name))
    else if provider == "openai" then Ok(Lookup(OpenAIModels, name))
    else if provider == "gemini" then Ok(Lookup(GeminiModels, name))
    else Err("Unknown provider: " + provider)
  }

  /** A name the provider's table holds gives its entry. */
  lemma KnownName(provider: string, name: string)
    requires TableOf(provider).Some? && name in TableOf(provider).value
    ensures GetModel(provider, name) == Ok(TableOf(provider).value[name])
  {
  }

  /** Any other name falls back to the provider's `"default"` entry. */
  lemma UnknownName(provider: string, name: string)
    requires TableOf(provider).Some? && name !in TableOf(provider).value
    ensures GetModel(provider, name) == GetModel(provider)
  {
  }

  /** Each table holds only `"default"`, so the name never matters. */
  lemma NameIrrelevant(provider: string, a: string, b: string)
    ensures GetModel(provider, a) == GetModel(provider, b)
  {
  }
}
