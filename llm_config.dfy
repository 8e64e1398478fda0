/** The LLM provider selection of the backend (`LLMProvider` in
    src/backend/llm_config.py): which chat models are built from the
    environment, and which one is primary or secondary. The models are
    records of their settings; the environment is a map of variables. */
module LlmConfig {
  import opened Wrappers

  const DefaultPreference: string := "claude"
  const NoLlmAvailable: string := "No LLM available. Please configure either Claude or OpenAI."

  /** A configured chat model. */
  datatype ChatModel =
    | ChatAnthropic(model: string, apiKey: string, temperature: real)
    | ChatOpenAI(model: string, apiKey: string, temperature: real)

  /** Python truthiness of an optional environment value. */
  predicate Truthy(v: Option<string>) {
    v.Some? && v.value != ""
  }

  /** `os.getenv(name)`. */
  function GetEnv(env: map<string, string>, name: string): (r: Option<string>)
    ensures r.Some? <==> name in env
  {
    if name in env then Some(env[name]) else None
  }

  /** Whether `_initialize_llms` builds the Claude model. */
  predicate WantsClaude(preferred: string, anthropicKey: Option<string>) {
    (preferred == "claude" || preferred == "both") && Truthy(anthropicKey)
  }

  /** Whether `_initialize_llms` builds the OpenAI model. */
  predicate WantsOpenAi(preferred: string, openaiKey: Option<string>) {
    (preferred == "openai" || preferred == "both") && Truthy(openaiKey)
  }

  class LLMProvider {
    var preferredLlm: string
    var openaiKey: Option<string>
    var anthropicKey: Option<string>
    var claude: Option<ChatModel>
    var openai: Option<ChatModel>

    /** The states `__init__` can produce: each model is present exactly when
        its preference and key allow it, built from that key. */
    ghost predicate Reachable()
      reads this
    {
      && (claude.Some? <==> WantsClaude(preferredLlm, anthropicKey))
      && (claude.Some? ==> claude.value == ChatAnthropic("claude-3-opus-20240229", anthropicKey.value, 0.7))
      && (openai.Some? <==> WantsOpenAi(preferredLlm, openaiKey))
      && (openai.Some? ==> openai.value == ChatOpenAI("gpt-4", openaiKey.value, 0.7))
    }

    /** `__init__`: read the preference (default `claude`) and both keys,
        start with no model, then build the allowed ones. */
    constructor(env: map<string, string>)
      ensures preferredLlm == GetEnv(env, "PREFERRED_LLM").GetOr(DefaultPreference)
      ensures openaiKey == GetEnv(env, "OPENAI_API_KEY")
      ensures anthropicKey == GetEnv(env, "ANTHROPIC_API_KEY")
      ensures Reachable()
    {
      preferredLlm := GetEnv(env, "PREFERRED_LLM").GetOr(DefaultPreference);
      openaiKey := GetEnv(env, "OPENAI_API_KEY");
      anthropicKey := GetEnv(env, "ANTHROPIC_API_KEY");
      claude := None;
      openai := None;
      new;
      InitializeLlms();
    }

    /** `_initialize_llms`: build Claude for `claude`/`both` with a key, and
        OpenAI for `openai`/`both` with a key; leave the other untouched. */
    method InitializeLlms()
      modifies this
      ensures preferredLlm == old(preferredLlm) && openaiKey == old(openaiKey) && anthropicKey == old(anthropicKey)
      ensures claude == if WantsClaude(preferredLlm, anthropicKey)
                        then Some(ChatAnthropic("claude-3-opus-20240229", anthropicKey.value, 0.7))
                        else old(claude)
      ensures openai == if WantsOpenAi(preferredLlm, openaiKey)
                        then Some(ChatOpenAI("gpt-4", openaiKey.value, 0.7))
                        else old(openai)
    {
      if (preferredLlm == "claude" || preferredLlm == "both") && Truthy(anthropicKey) {
        claude := Some(ChatAnthropic("claude-3-opus-20240229", anthropicKey.value, 0.7));
      }
      if (preferredLlm == "openai" || preferredLlm == "both") && Truthy(openaiKey) {
        openai := Some(ChatOpenAI("gpt-4", openaiKey.value, 0.7));
      }
    }

    /** `get_primary_llm`: the preferred model if built, else Claude, else
        OpenAI; with neither built it raises `ValueError`, so it never
        answers "no model". */
    function GetPrimaryLlm(): (r: Result<ChatModel, string>)
      reads this
      ensures r.Ok? <==> claude.Some? || openai.Some?
      ensures r.Err? ==> r.error == NoLlmAvailable
      ensures r.Ok? ==> (claude.Some? && r.value == claude.value) || (openai.Some? && r.value == openai.value)
      ensures preferredLlm == "openai" && openai.Some? ==> r == Ok(openai.value)
      ensures preferredLlm != "openai" && claude.Some? ==> r == Ok(claude.value)
    {
      if preferredLlm == "claude" && claude.Some? then Ok(claude.value)
      else if preferredLlm == "openai" && openai.Some? then Ok(openai.value)
      else if claude.Some? then Ok(claude.value)
      else if openai.Some? then Ok(openai.value)
      else Err(NoLlmAvailable)
    }

    /** `get_secondary_llm`: the other provider's model when one provider is
        preferred and the other is built; nothing for `both` or any other
        preference. */
    function GetSecondaryLlm(): (r: Option<ChatModel>)
      reads this
      ensures r.Some? ==> (preferredLlm == "claude" && r == openai) || (preferredLlm == "openai" && r == claude)
      ensures preferredLlm != "claude" && preferredLlm != "openai" ==> r == None
    {
      if preferredLlm == "claude" && openai.Some? then openai
      else if preferredLlm == "openai" && claude.Some? then claude
      else None
    }
  }

  /** In every state `__init__` can produce there is no secondary model:
      preferring Claude never builds OpenAI and preferring OpenAI never
      builds Claude. */
  lemma SecondaryNeverBuilt(p: LLMProvider)
    requires p.Reachable()
    ensures p.GetSecondaryLlm() == None
  {
    assert p.preferredLlm == "claude" ==> !WantsOpenAi(p.preferredLlm, p.openaiKey);
    assert p.preferredLlm == "openai" ==> !WantsClaude(p.preferredLlm, p.anthropicKey);
  }

  /** In a state `__init__` can produce, a primary model exists exactly when
      the preference and keys allow at least one; with `both` and a Claude
      key, Claude is primary. */
  lemma PrimaryWhenReachable(p: LLMProvider)
    requires p.Reachable()
    ensures p.GetPrimaryLlm().Ok?
        <==> WantsClaude(p.preferredLlm, p.anthropicKey) || WantsOpenAi(p.preferredLlm, p.openaiKey)
    ensures p.preferredLlm == "both" && Truthy(p.anthropicKey)
        ==> p.GetPrimaryLlm() == Ok(ChatAnthropic("claude-3-opus-20240229", p.anthropicKey.value, 0.7))
  {
  }

  /** Without `PREFERRED_LLM` the preference is Claude, and with only an
      OpenAI key no model is built at all. */
  lemma DefaultPreferenceIsClaude(env: map<string, string>)
    requires "PREFERRED_LLM" !in env
    ensures GetEnv(env, "PREFERRED_LLM").GetOr(DefaultPreference) == "claude"
    ensures !WantsOpenAi(GetEnv(env, "PREFERRED_LLM").GetOr(DefaultPreference), GetEnv(env, "OPENAI_API_KEY"))
  {
  }
}
