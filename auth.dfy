/**
 * `mistral_auth.get_mistral_client`: the chat client can only be built when
 * the `MISTRAL_API_KEY` environment variable holds a non-empty key.
 */
module Auth {
  import opened Wrappers

  /** The message of the `ValueError` raised when the key is missing (it names `MISTRAL_KEY`, not the variable read). */
  const MissingKeyMessage: string := "MISTRAL_KEY environment variable is not set."

  /** A client, known by the key it was built with. */
  datatype Client = Client(apiKey: string)

  /** Whether `if not api_key` lets the key through: set, and not the empty string. */
  predicate KeyPresent(apiKey: Option<string>) {
    apiKey.Some? && apiKey.value != ""
  }

  /** `get_mistral_client()` given what `os.getenv("MISTRAL_API_KEY")` returns; `Err` is the `ValueError`. */
  function GetMistralClient(apiKey: Option<string>): (r: Result<Client, string>)
    ensures r.Ok? <==> KeyPresent(apiKey)
    ensures r.Ok? ==> r.value.apiKey == apiKey.value
    ensures r.Err? ==> r.error == MissingKeyMessage
  {
    if KeyPresent(apiKey) then Ok(Client(apiKey.value)) else Err(MissingKeyMessage)
  }

  /** An unset variable and an empty one fail alike. */
  lemma UnsetOrEmptyKeyFails()
    ensures GetMistralClient(None) == Err(MissingKeyMessage)
    ensures GetMistralClient(Some("")) == Err(MissingKeyMessage)
  {
  }
}
