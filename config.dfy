/** The credential checks of the bot's configuration: `Config.validate` and
    `Config.has_openai`. The environment-derived class attributes are the
    parameters; `None` is an unset environment variable. */
module Config {
  import opened Wrappers
  import opened Text

  const KeyNotSet := "BYBIT_API_KEY environment variable is not set"
  const SecretNotSet := "BYBIT_API_SECRET environment variable is not set"
  const KeyEmpty := "BYBIT_API_KEY is empty"
  const SecretEmpty := "BYBIT_API_SECRET is empty"

  /** Python truthiness of an optional string: `None` and `""` are false. */
  predicate Truthy(v: Option<string>) {
    v.Some? && v.value != ""
  }

  /** A value that is set and holds something other than whitespace. */
  ghost predicate Filled(v: Option<string>) {
    v.Some? && !IsBlank(v.value)
  }

  /** `Config.validate()`: the first failing check, in the order
      key set, secret set, key non-blank, secret non-blank. */
  function Validate(apiKey: Option<string>, apiSecret: Option<string>): (r: (bool, string))
    ensures r.0 <==> Filled(apiKey) && Filled(apiSecret)
    ensures r.0 ==> r.1 == ""
    ensures !Truthy(apiKey) ==> r == (false, KeyNotSet)
    ensures Truthy(apiKey) && !Truthy(apiSecret) ==> r == (false, SecretNotSet)
    ensures Truthy(apiKey) && Truthy(apiSecret) && IsBlank(apiKey.value) ==> r == (false, KeyEmpty)
    ensures Truthy(apiKey) && Truthy(apiSecret) && !IsBlank(apiKey.value) && IsBlank(apiSecret.value)
            ==> r == (false, SecretEmpty)
  {
    if !Truthy(apiKey) then (false, KeyNotSet)
    else if !Truthy(apiSecret) then (false, SecretNotSet)
    else if Strip(apiKey.value) == "" then (false, KeyEmpty)
    else if Strip(apiSecret.value) == "" then (false, SecretEmpty)
    else (true, "")
  }

  /** `Config.has_openai()`: an OpenAI key is set and is not blank. */
  function HasOpenAi(openAiKey: Option<string>): (b: bool)
    ensures b <==> Filled(openAiKey)
  {
    Truthy(openAiKey) && Strip(openAiKey.value) != ""
  }
}
