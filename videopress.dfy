/**
 * The Videopress provider: an oEmbed provider whose `configure` also sets the
 * `for` query parameter Videopress requires, naming the referring site.
 */
module Videopress {
  import opened Wrappers
  import opened Shared
  import opened Embeds
  import opened OEmbedProvider

  const Name: string := "videopress"
  const ProviderURL: string := "https://public-api.wordpress.com/oembed/1.0/"
  const URLPatterns: seq<string> := ["^https?://videopress.com/v/.*"]
  const Format: string := "json"

  /** The `for` value used when the engine options name no referrer. */
  const DefaultReferrer: string := "www.example.com"

  /** `engineOptions.referrer` when it is truthy, else the placeholder site. */
  function ForParameter(config: EngineOptions): (r: string)
  {
    if Truthy(config.referrer) then config.referrer.value else DefaultReferrer
  }

  /** `defaultProviderQueryStringParameters` after `configure`. */
  function QueryParameters(config: EngineOptions): (q: Query)
    ensures UniqueKeys(q)
  {
    [("for", Text(ForParameter(config)))]
  }

  /** The referrer is used exactly when it is given and not empty; the parameter is never empty. */
  lemma ForParameterSpec(config: EngineOptions)
    ensures config.referrer.Some? && config.referrer.value != "" ==> ForParameter(config) == config.referrer.value
    ensures config.referrer.None? || config.referrer.value == "" ==> ForParameter(config) == DefaultReferrer
    ensures ForParameter(config) != ""
  {
  }

  /**
   * The API query Videopress is sent: the standard keys unchanged, followed by
   * `for`, since no standard key is called `for`.
   */
  lemma {:induction false} VideopressQuery(options: EmbedOptions, config: EngineOptions)
    ensures APIQuery(options, Format, Some(QueryParameters(config)))
         == StandardQuery(options, Format) + [("for", Text(ForParameter(config)))]
    ensures Lookup(APIQuery(options, Format, Some(QueryParameters(config))), "for") == Some(Text(ForParameter(config)))
  {
    var base := StandardQuery(options, Format);
    StandardQueryKeys(options, Format);
    assert "for" !in Keys(base);
    var params := QueryParameters(config);
    assert params[..0] == [];
    assert AssignAll(base, params) == Put(base, "for", Text(ForParameter(config)));
    PutNewKey(base, "for", Text(ForParameter(config)));
    PutSpec(base, "for", Text(ForParameter(config)));
  }

  /** The API URL starts with the Videopress endpoint and a `?`. */
  lemma VideopressAPIURL(options: EmbedOptions, config: EngineOptions, stringify: Query -> string)
    ensures var url := APIURL(options, Some(ProviderURL), Format, Some(QueryParameters(config)), stringify);
      |url| > |ProviderURL| && url[..|ProviderURL| + 1] == ProviderURL + "?"
  {
  }
}
