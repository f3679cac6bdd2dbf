/** `check_tokens`: the three credentials read from the environment must all be set. */
module Tokens {
  import opened Wrappers

  /** Python truthiness of `os.getenv(...)`: set, and not the empty string. */
  predicate Truthy(v: Option<string>) {
    v.Some? && v.value != ""
  }

  /** Python's `all(values)`. */
  function All(values: seq<Option<string>>): (r: bool)
    ensures r <==> forall i :: 0 <= i < |values| ==> Truthy(values[i])
    decreases |values|
  {
    if values == [] then true else Truthy(values[0]) && All(values[1..])
  }

  /**
   * `check_tokens()`, with `PRACTICUM_TOKEN`, `TELEGRAM_TOKEN` and
   * `TELEGRAM_CHAT_ID` passed in. A false `all` makes the source return the
   * falsy result of `logging.critical`, modelled as `false`.
   */
  function CheckTokens(practicum: Option<string>, telegram: Option<string>, chatId: Option<string>): (ok: bool)
    ensures ok <==> Truthy(practicum) && Truthy(telegram) && Truthy(chatId)
  {
    var tokens := [practicum, telegram, chatId];
    assert tokens[0] == practicum && tokens[1] == telegram && tokens[2] == chatId;
    All(tokens)
  }
}
