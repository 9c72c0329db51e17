/** Choice of the language-model provider from the environment, and the
    clean-up of a model id for providers that do not take a vendor prefix.
    The environment is a map from variable names to values; building the
    client object is not modelled, only the provider and id it gets. */
module ModelProvider {
  import opened Common

  /** The vendor prefixes removed for providers other than OpenRouter, in the order tried. */
  const Prefixes: seq<string> := ["openai/", "anthropic/", "google/", "meta/", "mistral/"]

  lemma PrefixesNonEmpty()
    ensures forall i :: 0 <= i < |Prefixes| ==> Prefixes[i] != []
  {
    assert forall i :: 0 <= i < |Prefixes| ==> |Prefixes[i]| >= 5;
  }

  predicate IsSuffix(t: string, s: string)
  {
    |t| <= |s| && s[|s| - |t|..] == t
  }

  /** The prefix loop of `clean_model_id`: drop the first of `prefixes`
      that `id` starts with, once, and stop. */
  function StripFirstPrefix(id: string, prefixes: seq<string>): (r: string)
    requires forall i :: 0 <= i < |prefixes| ==> prefixes[i] != []
    ensures IsSuffix(r, id)
    ensures r == id <==> forall i :: 0 <= i < |prefixes| ==> !IsPrefix(prefixes[i], id)
    ensures r != id ==> exists i :: 0 <= i < |prefixes| && IsPrefix(prefixes[i], id) && r == id[|prefixes[i]|..] &&
                                    forall j :: 0 <= j < i ==> !IsPrefix(prefixes[j], id)
  {
    if prefixes == [] then id
    else if IsPrefix(prefixes[0], id) then
      assert |id[|prefixes[0]|..]| == |id| - |prefixes[0]|;
      id[|prefixes[0]|..]
    else
      var r := StripFirstPrefix(id, prefixes[1..]);
      if r != id then
        var i :| 0 <= i < |prefixes[1..]| && IsPrefix(prefixes[1..][i], id) && r == id[|prefixes[1..][i]|..] &&
                 forall j :: 0 <= j < i ==> !IsPrefix(prefixes[1..][j], id);
        assert prefixes[i + 1] == prefixes[1..][i];
        assert forall j :: 0 <= j < i + 1 ==> !IsPrefix(prefixes[j], id) by {
          forall j | 0 <= j < i + 1 ensures !IsPrefix(prefixes[j], id) {
            if j > 0 {
              assert prefixes[j] == prefixes[1..][j - 1];
            }
          }
        }
        r
      else
        assert forall i :: 0 <= i < |prefixes| ==> !IsPrefix(prefixes[i], id) by {
          forall i | 0 <= i < |prefixes| ensures !IsPrefix(prefixes[i], id) {
            if i > 0 {
              assert prefixes[i] == prefixes[1..][i - 1];
            }
          }
        }
        r
  }

  /** `clean_model_id`: an empty id, and any id bound for OpenRouter, is
      returned as given; otherwise the first vendor prefix it starts with is
      removed. */
  function CleanModelId(modelId: string, provider: string): (r: string)
    ensures IsSuffix(r, modelId)
    ensures modelId == [] || provider == "openrouter" ==> r == modelId
    ensures modelId != [] && provider != "openrouter" ==>
              (r == modelId <==> forall i :: 0 <= i < |Prefixes| ==> !IsPrefix(Prefixes[i], modelId))
  {
    if modelId == [] then modelId
    else if provider != "openrouter" then
      PrefixesNonEmpty();
      StripFirstPrefix(modelId, Prefixes)
    else modelId
  }

  /** A changed id lost exactly the first vendor prefix it started with. */
  lemma CleanModelIdDropsFirstPrefix(modelId: string, provider: string)
    ensures var r := CleanModelId(modelId, provider);
            r != modelId ==> exists i :: 0 <= i < |Prefixes| && IsPrefix(Prefixes[i], modelId) &&
                                        r == modelId[|Prefixes[i]|..] &&
                                        forall j :: 0 <= j < i ==> !IsPrefix(Prefixes[j], modelId)
  {
    PrefixesNonEmpty();
  }

  /** Only one prefix is ever removed: a doubly prefixed id keeps its second prefix. */
  lemma StripsOnce()
    ensures CleanModelId("openai/openai/gpt-4o", "openai") == "openai/gpt-4o"
  {
    var id := "openai/openai/gpt-4o";
    assert IsPrefix(Prefixes[0], id);
  }

  // ==================== Provider choice ====================

  datatype Provider = Google | OpenRouter | OpenAI

  /** The client `get_model` would build: its provider and model id. */
  datatype ModelChoice = ModelChoice(provider: Provider, id: string)

  /** `os.getenv(key)` is set to a non-empty value. */
  predicate EnvSet(env: map<string, string>, key: string)
  {
    key in env && env[key] != ""
  }

  /** `value or default` for an optional string. */
  function OrDefault(value: Option<string>, default: string): (r: string)
    ensures value.Some? && value.value != "" ==> r == value.value
    ensures value.None? || value.value == "" ==> r == default
  {
    if value.Some? && value.value != "" then value.value else default
  }

  /** `get_model`: a Google key wins, then an OpenRouter key, then an
      OpenAI key, and without any key OpenRouter is chosen. The model id is
      read from `envKey`; a missing or empty id gives the provider's default,
      and Google and OpenAI get the id without its vendor prefix. */
  function GetModel(env: map<string, string>, envKey: string): (m: ModelChoice)
    ensures m.provider == Google <==> EnvSet(env, "GOOGLE_API_KEY")
    ensures m.provider == OpenAI <==>
      !EnvSet(env, "GOOGLE_API_KEY") && !EnvSet(env, "OPENROUTER_API_KEY") && EnvSet(env, "OPENAI_API_KEY")
    ensures m.id != ""
    ensures m.provider == OpenRouter ==> m.id == (if EnvSet(env, envKey) then env[envKey] else "google/gemini-2.5-flash")
    ensures !EnvSet(env, envKey) ==>
      m.id == (match m.provider
               case Google => "gemini-2.5-flash"
               case OpenRouter => "google/gemini-2.5-flash"
               case OpenAI => "gpt-4o-mini")
    ensures m.provider == Google && EnvSet(env, envKey) ==>
      m.id == OrDefault(Some(CleanModelId(env[envKey], "google")), "gemini-2.5-flash")
    ensures m.provider == OpenAI && EnvSet(env, envKey) ==>
      m.id == OrDefault(Some(CleanModelId(env[envKey], "openai")), "gpt-4o-mini")
    ensures m.provider != OpenRouter && EnvSet(env, envKey) ==> IsSuffix(m.id, env[envKey]) || m.id in {"gemini-2.5-flash", "gpt-4o-mini"}
  {
    var modelId := if envKey in env then Some(env[envKey]) else None;
    if EnvSet(env, "GOOGLE_API_KEY") then
      var cleaned := if modelId.Some? then Some(CleanModelId(modelId.value, "google")) else None;
      ModelChoice(Google, OrDefault(cleaned, "gemini-2.5-flash"))
    else if EnvSet(env, "OPENROUTER_API_KEY") then
      ModelChoice(OpenRouter, OrDefault(modelId, "google/gemini-2.5-flash"))
    else if EnvSet(env, "OPENAI_API_KEY") then
      var cleaned := if modelId.Some? then Some(CleanModelId(modelId.value, "openai")) else None;
      ModelChoice(OpenAI, OrDefault(cleaned, "gpt-4o-mini"))
    else
      ModelChoice(OpenRouter, OrDefault(modelId, "google/gemini-2.5-flash"))
  }

  /** Adding a Google key switches any choice to Google; with it present,
      the other keys change nothing. */
  lemma GoogleKeyDominates(env: map<string, string>, envKey: string, key: string, value: string)
    requires EnvSet(env, "GOOGLE_API_KEY") && key != "GOOGLE_API_KEY" && key != envKey
    ensures GetModel(env[key := value], envKey) == GetModel(env, envKey)
  {
  }
}
