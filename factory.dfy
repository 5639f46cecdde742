/**
  * Provider dispatch (`services.factory`): a fixed table from provider to
  * adapter. Adapters keep no state, so an adapter is a plain value here.
  */
module Factory {
  import opened Wrappers
  import opened Schemas

  datatype Adapter = OpenAIAdapter | GeminiAdapter

  /** `ServiceFactory._services`. */
  const Services: map<Provider, Adapter> := map[OpenAI := OpenAIAdapter, Gemini := GeminiAdapter]

  /** `get_service`: the registered adapter, or an error for a provider without one. */
  function GetService(p: Provider): (r: Result<Adapter, Error>)
    ensures r.Ok? <==> p in Services
    ensures r.Ok? ==> r.value == Services[p]
    ensures r.Err? ==> r.error == UnsupportedProvider
  {
    if p in Services then Ok(Services[p]) else Err(UnsupportedProvider)
  }

  /** Each provider is served by its own adapter, and no provider is left without one. */
  lemma ServiceForEachProvider(p: Provider)
    ensures GetService(p) == Ok(if p == OpenAI then OpenAIAdapter else GeminiAdapter)
  {
  }
}
