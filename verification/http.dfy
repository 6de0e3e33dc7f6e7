/** What an awaited `fetch` call hands back to the relay, taken as an input value. */
module Http {
  import opened Wrappers
  import opened JsValues

  /**
   * Either the request itself failed (`fetch` rejected), or a response arrived.
   * `text` is what `resp.text()` resolves to and `json` what `resp.json()` resolves to;
   * `None` where reading or decoding the body throws.
   */
  datatype Reply =
    | NetworkError
    | Response(status: int, text: Option<string>, json: Option<Json>)
  {
    /** `resp.ok`: the status is in the range 200 to 299. */
    predicate Ok()
    {
      Response? && 200 <= status <= 299
    }
  }
}
