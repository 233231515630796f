/**
 * The oEmbed provider: it builds the provider API URL from the embed options
 * and the provider's own query parameters, makes one HTTP request, and fills
 * the embed from the reply (the parsed JSON on status 200, error markup on a
 * transport error, a parse error, a throwing `filterData` or another status).
 *
 * The HTTP transport, `JSON.parse`, `querystring.stringify` and the version
 * read from the package manifest are parameters (see `Http`). The provider's
 * own fields are passed as a `ProviderFields` value in place of `this`.
 */
module OEmbedProvider {
  import opened Wrappers
  import opened Shared
  import opened Embeds
  import opened URLEmbedProvider
  import opened Surrogates

  /** `OEmbedProvider.prototype.format`. */
  const DefaultFormat: string := "json"

  /** `OEmbedProvider.prototype.timeoutMs`, in milliseconds. */
  const DefaultTimeoutMs: int := 2000

  const UserAgentPrefix: string := "URLEmbed Module HTTP Agent "

  const MissingURLMessage: string := "Embed.options object missing required property: embedURL"

  /** What `response.request.uri.href` throws when the transport reported an error and gave no response. */
  const NoResponse: Error := TypeError("Cannot read properties of undefined (reading 'request')")

  /** What `embed.data.html = …` throws once `embed.data` has been set to undefined. */
  const NoDataObject: Error := TypeError("Cannot set properties of undefined (setting 'html')")

  /**
   * The fields of an oEmbed provider instance that resolving an embed reads.
   * `queryParameters` is the instance's `defaultProviderQueryStringParameters`.
   */
  datatype ProviderFields = ProviderFields(
    providerURL: Option<string>,
    format: string,
    timeoutMs: int,
    queryParameters: Option<Query>,
    hooks: Hooks)

  /** The HTTP request options: the User-Agent header, the timeout and, once set, the URL. */
  datatype RequestOptions = RequestOptions(userAgent: string, timeout: int, url: Option<string>)

  /**
   * What the request callback receives: an error and no response, or a
   * response with its status code, the final URL of the request and the body.
   */
  datatype Reply = Failed(error: Error) | Received(statusCode: int, href: string, body: string)

  /** The collaborators a request needs. */
  datatype Http = Http(
    transport: RequestOptions -> Reply,
    parseJson: string -> Result<Data, Error>,
    stringify: Query -> string,
    packageVersion: string)

  // ---------------------------------------------------------------- query objects

  function Keys(q: Query): (ks: seq<string>)
    ensures |ks| == |q| && forall i {:trigger ks[i]} :: 0 <= i < |q| ==> ks[i] == q[i].0
  {
    if |q| == 0 then [] else [q[0].0] + Keys(q[1..])
  }

  predicate Distinct(ks: seq<string>)
  {
    forall i, j :: 0 <= i < j < |ks| ==> ks[i] != ks[j]
  }

  /** No key appears twice, as in any JavaScript object. */
  predicate UniqueKeys(q: Query)
  {
    Distinct(Keys(q))
  }

  /** `q[k]`: the value of the first entry with key k, if any. */
  function Lookup(q: Query, k: string): (v: Option<QValue>)
    ensures v.Some? <==> k in Keys(q)
  {
    if |q| == 0 then None
    else if q[0].0 == k then Some(q[0].1)
    else Lookup(q[1..], k)
  }

  /** `q[k] = v`: an existing key keeps its place and takes the new value; a new key goes last. */
  function Put(q: Query, k: string, v: QValue): Query
  {
    if |q| == 0 then [(k, v)]
    else if q[0].0 == k then [(k, v)] + q[1..]
    else [q[0]] + Put(q[1..], k, v)
  }

  /** Assigning every property of `params` to `q`, in enumeration order. */
  function AssignAll(q: Query, params: Query): Query
  {
    if |params| == 0 then q
    else var last := params[|params| - 1]; Put(AssignAll(q, params[..|params| - 1]), last.0, last.1)
  }

  lemma KeysAppend(a: Query, b: Query)
    ensures Keys(a + b) == Keys(a) + Keys(b)
  {
  }

  /**
   * After `q[k] = v`, k holds v and every other key holds what it held; the
   * keys keep their order, k being appended only when it was not there.
   */
  lemma PutSpec(q: Query, k: string, v: QValue)
    ensures Lookup(Put(q, k, v), k) == Some(v)
    ensures forall k' :: k' != k ==> Lookup(Put(q, k, v), k') == Lookup(q, k')
    ensures Keys(Put(q, k, v)) == if k in Keys(q) then Keys(q) else Keys(q) + [k]
  {
    PutLookup(q, k, v);
    forall k' | k' != k ensures Lookup(Put(q, k, v), k') == Lookup(q, k') {
      PutOthers(q, k, v, k');
    }
    PutKeys(q, k, v);
  }

  /** After `q[k] = v`, k holds v. */
  lemma {:induction false} PutLookup(q: Query, k: string, v: QValue)
    ensures Lookup(Put(q, k, v), k) == Some(v)
  {
    if |q| > 0 && q[0].0 != k {
      PutLookup(q[1..], k, v);
    }
  }

  /** After `q[k] = v`, every other key holds what it held. */
  lemma {:induction false} PutOthers(q: Query, k: string, v: QValue, k': string)
    requires k' != k
    ensures Lookup(Put(q, k, v), k') == Lookup(q, k')
  {
    if |q| > 0 && q[0].0 != k {
      PutOthers(q[1..], k, v, k');
    }
  }

  /** After `q[k] = v`, the keys are in the same order, with k last if it is new. */
  lemma {:induction false} PutKeys(q: Query, k: string, v: QValue)
    ensures Keys(Put(q, k, v)) == if k in Keys(q) then Keys(q) else Keys(q) + [k]
  {
    if |q| > 0 && q[0].0 != k {
      PutKeys(q[1..], k, v);
      var r := Put(q, k, v);
      assert r[1..] == Put(q[1..], k, v);
      assert Keys(r) == [q[0].0] + Keys(Put(q[1..], k, v));
      assert Keys(q) == [q[0].0] + Keys(q[1..]);
    } else if |q| > 0 {
      var r := Put(q, k, v);
      assert Keys(r) == [k] + Keys(q[1..]);
      assert Keys(q) == [k] + Keys(q[1..]);
    }
  }

  /** Assigning a key the object does not have appends it. */
  lemma {:induction false} PutNewKey(q: Query, k: string, v: QValue)
    requires k !in Keys(q)
    ensures Put(q, k, v) == q + [(k, v)]
  {
    if |q| > 0 {
      assert Keys(q) == [q[0].0] + Keys(q[1..]);
      PutNewKey(q[1..], k, v);
      assert q == [q[0]] + q[1..];
    }
  }

  /** Assignment never creates a duplicate key. */
  lemma PutKeepsKeysUnique(q: Query, k: string, v: QValue)
    requires UniqueKeys(q)
    ensures UniqueKeys(Put(q, k, v))
  {
    PutSpec(q, k, v);
  }

  /** The keys already present keep their places at the front, and a key appears twice only if it already did. */
  lemma {:induction false} AssignAllKeys(q: Query, params: Query)
    ensures |Keys(q)| <= |Keys(AssignAll(q, params))| && Keys(AssignAll(q, params))[..|Keys(q)|] == Keys(q)
    ensures UniqueKeys(q) ==> UniqueKeys(AssignAll(q, params))
  {
    if |params| > 0 {
      var init := params[..|params| - 1];
      var last := params[|params| - 1];
      AssignAllKeys(q, init);
      var a := AssignAll(q, init);
      PutSpec(a, last.0, last.1);
      if UniqueKeys(q) {
        PutKeepsKeysUnique(a, last.0, last.1);
      }
    }
  }

  /**
   * Assigning a JavaScript object's properties (whose keys are distinct): a
   * key it has takes its value, any other key keeps the value it had.
   */
  lemma {:induction false} AssignAllLookup(q: Query, params: Query, k: string)
    requires UniqueKeys(params)
    ensures Lookup(AssignAll(q, params), k) == if k in Keys(params) then Lookup(params, k) else Lookup(q, k)
  {
    if |params| > 0 {
      var init := params[..|params| - 1];
      var last := params[|params| - 1];
      assert params == init + [last];
      KeysAppend(init, [last]);
      assert Keys(params) == Keys(init) + [last.0];
      assert last.0 !in Keys(init) by {
        forall j | 0 <= j < |init| ensures Keys(init)[j] != last.0 {
          assert Keys(params)[j] == Keys(init)[j] && Keys(params)[|init|] == last.0;
        }
      }
      assert UniqueKeys(init) by {
        assert forall i :: 0 <= i < |Keys(init)| ==> Keys(init)[i] == Keys(params)[i];
      }
      AssignAllLookup(q, init, k);
      PutSpec(AssignAll(q, init), last.0, last.1);
      LookupSnoc(init, last, k);
    }
  }

  /** Looking a key up in a query with one more entry at the end. */
  lemma {:induction false} LookupSnoc(q: Query, e: (string, QValue), k: string)
    ensures Lookup(q + [e], k) == if k in Keys(q) then Lookup(q, k) else if k == e.0 then Some(e.1) else None
  {
    if |q| > 0 {
      assert (q + [e])[1..] == q[1..] + [e];
      LookupSnoc(q[1..], e, k);
      assert Keys(q) == [q[0].0] + Keys(q[1..]);
    }
  }

  // ---------------------------------------------------------------- buildAPIURL

  /** An option value as a query value. */
  function URLValue(u: Option<string>): QValue
  {
    match u
    case Some(s) => Text(s)
    case None => Undefined
  }

  /** `{url, format}`, then `maxwidth` and `maxheight` when they are truthy, in that order. */
  function StandardQuery(options: EmbedOptions, format: string): Query
  {
    [("url", URLValue(options.embedURL)), ("format", Text(format))]
      + (if TruthyNumber(options.maxWidth) then [("maxwidth", Number(options.maxWidth.value))] else [])
      + (if TruthyNumber(options.maxHeight) then [("maxheight", Number(options.maxHeight.value))] else [])
  }

  /** The standard query has `url` and `format` first and `maxwidth`, `maxheight` only when truthy, each once. */
  lemma StandardQueryKeys(options: EmbedOptions, format: string)
    ensures var q := StandardQuery(options, format);
      && Keys(q) == ["url", "format"] + (if TruthyNumber(options.maxWidth) then ["maxwidth"] else [])
                                      + (if TruthyNumber(options.maxHeight) then ["maxheight"] else [])
      && UniqueKeys(q)
      && Lookup(q, "url") == Some(URLValue(options.embedURL))
      && Lookup(q, "format") == Some(Text(format))
  {
    var w: Query := if TruthyNumber(options.maxWidth) then [("maxwidth", Number(options.maxWidth.value))] else [];
    var h: Query := if TruthyNumber(options.maxHeight) then [("maxheight", Number(options.maxHeight.value))] else [];
    var q0: Query := [("url", URLValue(options.embedURL)), ("format", Text(format))];
    KeysAppend(q0, w);
    KeysAppend(q0 + w, h);
    assert StandardQuery(options, format) == q0 + w + h;
  }

  /** The query of the API URL: the standard keys overridden or extended by the provider's own parameters. */
  function APIQuery(options: EmbedOptions, format: string, queryParameters: Option<Query>): Query
  {
    match queryParameters
    case None => StandardQuery(options, format)
    case Some(params) => AssignAll(StandardQuery(options, format), params)
  }

  function APIURL(options: EmbedOptions, providerURL: Option<string>, format: string, queryParameters: Option<Query>, stringify: Query -> string): string
  {
    Show(providerURL) + "?" + stringify(APIQuery(options, format, queryParameters))
  }

  /**
   * Every key of the provider's parameters takes their value; every other key
   * keeps the standard one (`url`, `format`, and the size limits only when given).
   */
  lemma APIQueryLookup(options: EmbedOptions, format: string, params: Query, k: string)
    requires UniqueKeys(params)
    ensures Lookup(APIQuery(options, format, Some(params)), k)
         == if k in Keys(params) then Lookup(params, k) else Lookup(StandardQuery(options, format), k)
    ensures k !in Keys(params) && k == "url" ==> Lookup(APIQuery(options, format, Some(params)), k) == Some(URLValue(options.embedURL))
    ensures k !in Keys(params) && k == "format" ==> Lookup(APIQuery(options, format, Some(params)), k) == Some(Text(format))
    ensures k !in Keys(params) && k == "maxwidth" ==> (Lookup(APIQuery(options, format, Some(params)), k).Some? <==> TruthyNumber(options.maxWidth))
    ensures k !in Keys(params) && k == "maxheight" ==> (Lookup(APIQuery(options, format, Some(params)), k).Some? <==> TruthyNumber(options.maxHeight))
  {
    StandardQueryKeys(options, format);
    AssignAllLookup(StandardQuery(options, format), params, k);
  }

  /** The standard keys come first, `url` then `format`, and no key is repeated. */
  lemma APIQueryKeys(options: EmbedOptions, format: string, queryParameters: Option<Query>)
    ensures |Keys(APIQuery(options, format, queryParameters))| >= 2
    ensures Keys(APIQuery(options, format, queryParameters))[..2] == ["url", "format"]
    ensures UniqueKeys(APIQuery(options, format, queryParameters))
  {
    var base := StandardQuery(options, format);
    StandardQueryKeys(options, format);
    if queryParameters.Some? {
      AssignAllKeys(base, queryParameters.value);
      var ks := Keys(AssignAll(base, queryParameters.value));
      assert ks[..2] == ks[..|Keys(base)|][..2];
    }
  }

  /**
   * The standard part of the query, assigned key by key as the source does:
   * each key is new, so each assignment appends.
   */
  lemma StandardQueryByAssignment(options: EmbedOptions, format: string)
    ensures var q2 := Put(Put([], "url", URLValue(options.embedURL)), "format", Text(format));
      var q3 := if TruthyNumber(options.maxWidth) then Put(q2, "maxwidth", Number(options.maxWidth.value)) else q2;
      StandardQuery(options, format) == if TruthyNumber(options.maxHeight) then Put(q3, "maxheight", Number(options.maxHeight.value)) else q3
  {
    var q1: Query := [("url", URLValue(options.embedURL))];
    assert Put([], "url", URLValue(options.embedURL)) == q1;
    PutNewKey(q1, "format", Text(format));
    var q2 := q1 + [("format", Text(format))];
    var q3 := q2;
    if TruthyNumber(options.maxWidth) {
      PutNewKey(q2, "maxwidth", Number(options.maxWidth.value));
      q3 := q2 + [("maxwidth", Number(options.maxWidth.value))];
    }
    if TruthyNumber(options.maxHeight) {
      KeysAppend(q2, q3[2..]);
      assert q3 == q2 + q3[2..];
      PutNewKey(q3, "maxheight", Number(options.maxHeight.value));
    }
  }

  /** Without provider parameters the query is exactly the standard one. */
  lemma APIQueryWithoutParameters(options: EmbedOptions, format: string)
    ensures APIQuery(options, format, None) == StandardQuery(options, format)
    ensures APIQuery(options, format, Some([])) == StandardQuery(options, format)
  {
  }

  /**
   * `buildAPIURL(embedOptions)`: fills a query object with the standard keys,
   * copies the provider's parameters into it one by one, and joins the
   * provider URL and the stringified query with `?`.
   */
  method BuildAPIURL(options: EmbedOptions, providerURL: Option<string>, format: string, queryParameters: Option<Query>, stringify: Query -> string)
    returns (url: string)
    ensures url == APIURL(options, providerURL, format, queryParameters, stringify)
    ensures url[..|Show(providerURL)| + 1] == Show(providerURL) + "?"
  {
    var qs: Query := [];
    qs := Put(qs, "url", URLValue(options.embedURL));
    qs := Put(qs, "format", Text(format));
    if TruthyNumber(options.maxWidth) {
      qs := Put(qs, "maxwidth", Number(options.maxWidth.value));
    }
    if TruthyNumber(options.maxHeight) {
      qs := Put(qs, "maxheight", Number(options.maxHeight.value));
    }
    StandardQueryByAssignment(options, format);
    assert qs == StandardQuery(options, format);
    if queryParameters.Some? {
      var params := queryParameters.value;
      var i := 0;
      while i < |params|
        invariant 0 <= i <= |params|
        invariant qs == AssignAll(StandardQuery(options, format), params[..i])
      {
        assert params[..i + 1][..i] == params[..i];
        qs := Put(qs, params[i].0, params[i].1);
        i := i + 1;
      }
      assert params[..i] == params;
    }
    url := Show(providerURL) + "?" + stringify(qs);
  }

  // ---------------------------------------------------------------- buildRequestOptions

  /** `this.version` after a request: read from the manifest only while it is falsy. */
  function VersionAfterRequest(version: Option<string>, packageVersion: string): (v: Option<string>)
  {
    if Truthy(version) then version else Some(packageVersion)
  }

  /**
   * The version is read at most once: after a request that found a usable
   * version, later requests keep it whatever the manifest would say then.
   */
  lemma VersionReadOnce(version: Option<string>, p1: string, p2: string)
    requires p1 != ""
    ensures VersionAfterRequest(version, p1).Some?
    ensures VersionAfterRequest(VersionAfterRequest(version, p1), p2) == VersionAfterRequest(version, p1)
    ensures Truthy(version) ==> VersionAfterRequest(version, p1) == version
    ensures !Truthy(version) ==> VersionAfterRequest(version, p1) == Some(p1)
  {
  }

  /**
   * `buildRequestOptions(options)`: the User-Agent header names the module
   * version, read from the manifest if the instance has none yet; the timeout
   * is the provider's. No URL is set yet.
   */
  method BuildRequestOptions(version: Option<string>, packageVersion: string, timeoutMs: int)
    returns (requestOptions: RequestOptions, newVersion: Option<string>)
    ensures newVersion == VersionAfterRequest(version, packageVersion)
    ensures requestOptions.userAgent == UserAgentPrefix + newVersion.value
    ensures requestOptions.userAgent[|UserAgentPrefix|..] == newVersion.value
    ensures requestOptions.timeout == timeoutMs && requestOptions.url == None
  {
    newVersion := version;
    if !Truthy(newVersion) {
      newVersion := Some(packageVersion);
    }
    requestOptions := RequestOptions(UserAgentPrefix + newVersion.value, timeoutMs, None);
  }

  /** The options the transport is called with. */
  function RequestFor(p: ProviderFields, version: Option<string>, http: Http, options: EmbedOptions): RequestOptions
  {
    RequestOptions(UserAgentPrefix + VersionAfterRequest(version, http.packageVersion).value, p.timeoutMs,
      Some(APIURL(options, p.providerURL, p.format, p.queryParameters, http.stringify)))
  }

  // ---------------------------------------------------------------- parseResponseBody

  /** What `parseResponseBody` gives: a data object, an exception from the parser, or undefined. */
  datatype Parsed = ParsedData(data: Data) | ParseThrew(thrown: Error) | NoResult

  /** For the JSON format, repair the `\U` escapes and parse; for any other format, undefined. */
  function ParseResponseBody(format: string, body: string, parseJson: string -> Result<Data, Error>): (r: Parsed)
  {
    if format == "json" then
      match parseJson(ConvertHighBitUnicodeToSurrogates(body))
      case Success(d) => ParsedData(d)
      case Failure(e) => ParseThrew(e)
    else NoResult
  }

  /**
   * Only the JSON format yields a result, and the parser sees the body with
   * every `\U` escape rewritten (a body without one is passed unchanged).
   */
  lemma ParseResponseBodySpec(format: string, body: string, parseJson: string -> Result<Data, Error>)
    ensures ParseResponseBody(format, body, parseJson).NoResult? <==> format != "json"
    ensures format == "json" && NoEscape(body) ==>
      ParseResponseBody(format, body, parseJson) == (match parseJson(body) case Success(d) => ParsedData(d) case Failure(e) => ParseThrew(e))
  {
    if NoEscape(body) {
      NoEscapeUnchanged(body);
    }
  }

  // ---------------------------------------------------------------- status errors

  function StatusMessage(statusCode: int, apiURL: string): string
  {
    "HTTP status " + DecimalString(statusCode) + " for embed provider URL: " + apiURL
  }

  /** `new UnexpectedStatusError(message)` as the error class is written: its `status` is always 0. */
  function UnexpectedStatusErrorAsWritten(message: string): Error
  {
    UnexpectedStatusError(message, 0)
  }

  /** The error for an unexpected status, carrying that status as its `status` property. */
  function NewUnexpectedStatusError(statusCode: int, apiURL: string): (e: Error)
    ensures e.UnexpectedStatusError? && e.status == statusCode
  {
    UnexpectedStatusError(StatusMessage(statusCode, apiURL), statusCode)
  }

  /** The message names the status, in decimal, and ends with the API URL that was requested. */
  lemma StatusMessageSpec(statusCode: int, apiURL: string)
    ensures var m := StatusMessage(statusCode, apiURL); var head := "HTTP status " + DecimalString(statusCode);
      && |m| >= |head| + |apiURL|
      && m[..|head|] == head
      && m[|m| - |apiURL|..] == apiURL
  {
    var head := "HTTP status " + DecimalString(statusCode);
    var m := StatusMessage(statusCode, apiURL);
    assert m == head + " for embed provider URL: " + apiURL;
  }

  /** As written, the recorded status never tells a 404 from a 500, nor either from success's 200. */
  lemma StatusIsLostAsWritten(code1: int, code2: int, apiURL: string)
    ensures UnexpectedStatusErrorAsWritten(StatusMessage(code1, apiURL)).status == 0
    ensures UnexpectedStatusErrorAsWritten(StatusMessage(code1, apiURL)).status
         == UnexpectedStatusErrorAsWritten(StatusMessage(code2, apiURL)).status
    ensures NewUnexpectedStatusError(404, apiURL).status != NewUnexpectedStatusError(500, apiURL).status
  {
  }

  // ---------------------------------------------------------------- the request callback

  /** `embed.data.html = markup`: the other properties of the data object stay. */
  function WithHtml(s: EmbedState, markup: string): EmbedState
  {
    s.(data := s.data["html" := markup])
  }

  /** The markup for an unexpected status: the provider's `errorMarkup<status>` when it has one, else its `errorMarkup`. */
  function StatusMarkup(hooks: Hooks, s: EmbedState, statusCode: int, e: Error): string
  {
    if statusCode in hooks.statusMarkup then hooks.statusMarkup[statusCode](EmbedArg(s), Some(e)) else MarkupFor(hooks, s, e)
  }

  /**
   * The request callback once a response arrived, from line 80 on: record the final
   * URL; on status 200 parse, let `filterData` work on the parsed object and
   * call back, or, if either throws, put
   * the error markup into `data.html`, record the error and call back; on any
   * other status record `statusError` and put the status markup into
   * `data.html`. A non-JSON format leaves `data` undefined, and the next write
   * to `data.html` throws out of the handler.
   */
  function AfterResponse(hooks: Hooks, format: string, s: EmbedState, statusCode: int, href: string, body: string,
                         parseJson: string -> Result<Data, Error>, statusError: Error): Step
  {
    var s1 := s.(oembedAPIURL := Some(href));
    if statusCode == 200 then
      match ParseResponseBody(format, body, parseJson)
      case NoResult => Step(s1, Crashed(NoDataObject))
      case ParseThrew(e) => Step(WithHtml(s1, MarkupFor(hooks, s1, e)).(error := Some(e)), CalledBack)
      case ParsedData(d) =>
        var f := hooks.filter(d);
        var s2 := s1.(data := f.data);
        match f.thrown
        case None => Step(s2, CalledBack)
        case Some(e) => Step(WithHtml(s2, MarkupFor(hooks, s2, e)).(error := Some(e)), CalledBack)
    else
      var s2 := s1.(error := Some(statusError));
      Step(WithHtml(s2, StatusMarkup(hooks, s2, statusCode, statusError)), CalledBack)
  }

  /**
   * The request callback as written: it reads `response.request.uri.href`
   * before looking at the error, so a transport error throws a TypeError out
   * of the handler and the embed is never delivered; the status error has
   * status 0.
   */
  function AfterReplyAsWritten(hooks: Hooks, format: string, s: EmbedState, apiURL: string, reply: Reply,
                               parseJson: string -> Result<Data, Error>): Step
  {
    match reply
    case Failed(_) => Step(s, Crashed(NoResponse))
    case Received(code, href, body) =>
      AfterResponse(hooks, format, s, code, href, body, parseJson, UnexpectedStatusErrorAsWritten(StatusMessage(code, apiURL)))
  }

  /**
   * The request callback as the `if (error)` branch means it: on a transport
   * error the URL that was requested is recorded, `data.html` gets the error
   * markup, the error is recorded and the callback fires; the status error
   * carries the status code.
   */
  function AfterReply(hooks: Hooks, format: string, s: EmbedState, apiURL: string, reply: Reply,
                      parseJson: string -> Result<Data, Error>): Step
  {
    match reply
    case Failed(e) =>
      var s1 := s.(oembedAPIURL := Some(apiURL));
      Step(WithHtml(s1, MarkupFor(hooks, s1, e)).(error := Some(e)), CalledBack)
    case Received(code, href, body) =>
      AfterResponse(hooks, format, s, code, href, body, parseJson, NewUnexpectedStatusError(code, apiURL))
  }

  /** A transport error: as written nothing is delivered; corrected, the embed comes back with the error. */
  lemma TransportErrorCrashesAsWritten(hooks: Hooks, format: string, s: EmbedState, apiURL: string, e: Error,
                                       parseJson: string -> Result<Data, Error>)
    ensures AfterReplyAsWritten(hooks, format, s, apiURL, Failed(e), parseJson) == Step(s, Crashed(NoResponse))
    ensures AfterReply(hooks, format, s, apiURL, Failed(e), parseJson).completion == CalledBack
    ensures AfterReply(hooks, format, s, apiURL, Failed(e), parseJson).state.error == Some(e)
  {
  }

  /**
   * The two versions differ only there: on a status-200 response they agree,
   * and on any other status they agree except for the status the error carries.
   */
  lemma AsWrittenAgreesOnResponses(hooks: Hooks, format: string, s: EmbedState, apiURL: string, code: int, href: string, body: string,
                                   parseJson: string -> Result<Data, Error>)
    requires hooks.errorMarkup.None? && code !in hooks.statusMarkup
    ensures code == 200 ==> (AfterReplyAsWritten(hooks, format, s, apiURL, Received(code, href, body), parseJson)
                          == AfterReply(hooks, format, s, apiURL, Received(code, href, body), parseJson))
    ensures code != 200 ==>
      var w := AfterReplyAsWritten(hooks, format, s, apiURL, Received(code, href, body), parseJson);
      var c := AfterReply(hooks, format, s, apiURL, Received(code, href, body), parseJson);
      && w.completion == c.completion == CalledBack
      && w.state.data == c.state.data
      && w.state.error.value.message == c.state.error.value.message
      && w.state.error.value.status == 0 && c.state.error.value.status == code
  {
  }

  /**
   * What the corrected callback does with each reply. The callback fires
   * unless a status-200 body arrives for a non-JSON format; the final or
   * requested URL is always recorded; on status 200 with a body that parses
   * and a `filterData` that returns, the parsed object replaces `data` and the
   * error is left as it was; on every error path the error is recorded, the
   * error markup goes into `data.html` and every other property of `data` is
   * kept.
   */
  lemma AfterReplySpec(hooks: Hooks, format: string, s: EmbedState, apiURL: string, reply: Reply,
                       parseJson: string -> Result<Data, Error>)
    ensures var r := AfterReply(hooks, format, s, apiURL, reply, parseJson);
      && (r.completion.Crashed? <==> reply.Received? && reply.statusCode == 200 && format != "json")
      && !r.completion.Threw?
      && r.state.options == s.options && r.state.startedDate == s.startedDate
      && r.state.finishedDate == s.finishedDate && r.state.elapsedMs == s.elapsedMs
      && r.state.oembedAPIURL == Some(if reply.Received? then reply.href else apiURL)
  {
  }

  lemma AfterReplyErrorPaths(hooks: Hooks, format: string, s: EmbedState, apiURL: string, reply: Reply,
                             parseJson: string -> Result<Data, Error>)
    ensures var r := AfterReply(hooks, format, s, apiURL, reply, parseJson);
      reply.Failed? ==> r.state.error == Some(reply.error) && r.state.data == s.data["html" := MarkupFor(hooks, s.(oembedAPIURL := Some(apiURL)), reply.error)]
    ensures var r := AfterReply(hooks, format, s, apiURL, reply, parseJson);
      reply.Received? && reply.statusCode != 200 ==>
        var e := NewUnexpectedStatusError(reply.statusCode, apiURL);
        && r.state.error == Some(e) && e.status == reply.statusCode
        && (forall k :: k in s.data && k != "html" ==> k in r.state.data && r.state.data[k] == s.data[k])
        && "html" in r.state.data
        && (reply.statusCode in hooks.statusMarkup ==>
              r.state.data["html"] == hooks.statusMarkup[reply.statusCode](EmbedArg(s.(oembedAPIURL := Some(reply.href), error := Some(e))), Some(e)))
  {
  }

  /**
   * On status 200 with a body the parser accepts and a `filterData` that
   * returns, what is delivered is the parsed object as `filterData` left it;
   * with a `filterData` that changes nothing, the parsed object itself. When
   * `filterData` throws, the error markup goes into the object it left.
   */
  lemma AfterReplyDeliversParsedData(hooks: Hooks, s: EmbedState, apiURL: string, href: string, body: string,
                                    parseJson: string -> Result<Data, Error>, d: Data)
    requires parseJson(ConvertHighBitUnicodeToSurrogates(body)) == Success(d)
    ensures hooks.filter(d).thrown.None? ==>
      AfterReply(hooks, "json", s, apiURL, Received(200, href, body), parseJson)
         == Step(s.(oembedAPIURL := Some(href), data := hooks.filter(d).data), CalledBack)
    ensures hooks.filter(d) == Filtered(d, None) ==>
      AfterReply(hooks, "json", s, apiURL, Received(200, href, body), parseJson)
         == Step(s.(oembedAPIURL := Some(href), data := d), CalledBack)
    ensures hooks.filter(d).thrown.Some? ==>
      var e := hooks.filter(d).thrown.value;
      var s2 := s.(oembedAPIURL := Some(href), data := hooks.filter(d).data);
      AfterReply(hooks, "json", s, apiURL, Received(200, href, body), parseJson)
         == Step(s2.(data := s2.data["html" := MarkupFor(hooks, s2, e)], error := Some(e)), CalledBack)
  {
  }

  /** A body the parser rejects leaves the old data in place apart from `html`, and records the parser's error. */
  lemma AfterReplyParseError(hooks: Hooks, s: EmbedState, apiURL: string, href: string, body: string,
                             parseJson: string -> Result<Data, Error>, e: Error)
    requires parseJson(ConvertHighBitUnicodeToSurrogates(body)) == Failure(e)
    ensures var r := AfterReply(hooks, "json", s, apiURL, Received(200, href, body), parseJson);
      && r.completion == CalledBack && r.state.error == Some(e)
      && r.state.data == s.data["html" := MarkupFor(hooks, s.(oembedAPIURL := Some(href)), e)]
  {
  }

  /**
   * `makeAPIRequest`'s callback, written as the handler's statements on the
   * embed (corrected as `AfterReply` describes).
   */
  method HandleReply(embed: Embed, hooks: Hooks, format: string, apiURL: string, reply: Reply, parseJson: string -> Result<Data, Error>)
    returns (c: Completion)
    modifies embed
    ensures Step(embed.State(), c) == AfterReply(hooks, format, old(embed.State()), apiURL, reply, parseJson)
  {
    match reply {
      case Failed(e) =>
        embed.oembedAPIURL := Some(apiURL);
        embed.data := embed.data["html" := MarkupFor(hooks, embed.State(), e)];
        embed.error := Some(e);
        c := CalledBack;
      case Received(code, href, body) =>
        embed.oembedAPIURL := Some(href);
        if code == 200 {
          var parsed := ParseResponseBody(format, body, parseJson);
          match parsed {
            case NoResult =>
              c := Crashed(NoDataObject);
            case ParseThrew(e) =>
              embed.data := embed.data["html" := MarkupFor(hooks, embed.State(), e)];
              embed.error := Some(e);
              c := CalledBack;
            case ParsedData(d) =>
              embed.data := d;
              var f := hooks.filter(embed.data);
              embed.data := f.data;
              if f.thrown.Some? {
                embed.data := embed.data["html" := MarkupFor(hooks, embed.State(), f.thrown.value)];
                embed.error := Some(f.thrown.value);
              }
              c := CalledBack;
          }
        } else {
          var e := NewUnexpectedStatusError(code, apiURL);
          embed.error := Some(e);
          embed.data := embed.data["html" := StatusMarkup(hooks, embed.State(), code, e)];
          c := CalledBack;
        }
    }
  }

  // ---------------------------------------------------------------- getEmbed

  /**
   * `getEmbed(embed, callback)`: throw an EmbedValidationError when the embed
   * has no URL; otherwise make the request the provider's fields describe and
   * handle the reply.
   */
  function GetEmbedStep(p: ProviderFields, version: Option<string>, http: Http, s: EmbedState): Step
  {
    if !Truthy(s.options.embedURL) then Step(s, Threw(EmbedValidationError(MissingURLMessage)))
    else
      var apiURL := APIURL(s.options, p.providerURL, p.format, p.queryParameters, http.stringify);
      AfterReply(p.hooks, p.format, s, apiURL, http.transport(RequestFor(p, version, http, s.options)), http.parseJson)
  }

  /**
   * It throws exactly when the URL is missing or empty, and then nothing
   * changes; otherwise it never throws, and it fails to call back only on a
   * status-200 reply for a non-JSON format. The request goes to the API URL
   * with the provider's timeout.
   */
  lemma GetEmbedOutcomes(p: ProviderFields, version: Option<string>, http: Http, s: EmbedState)
    ensures GetEmbedStep(p, version, http, s).completion.Threw? <==> !Truthy(s.options.embedURL)
    ensures !Truthy(s.options.embedURL) ==> GetEmbedStep(p, version, http, s).state == s
    ensures Truthy(s.options.embedURL) ==>
      var req := RequestFor(p, version, http, s.options);
      var reply := http.transport(req);
      && req.url == Some(APIURL(s.options, p.providerURL, p.format, p.queryParameters, http.stringify))
      && req.timeout == p.timeoutMs
      && (GetEmbedStep(p, version, http, s).completion.Crashed? <==> reply.Received? && reply.statusCode == 200 && p.format != "json")
  {
    if Truthy(s.options.embedURL) {
      AfterReplySpec(p.hooks, p.format, s, APIURL(s.options, p.providerURL, p.format, p.queryParameters, http.stringify),
        http.transport(RequestFor(p, version, http, s.options)), http.parseJson);
    }
  }

  /** `makeAPIRequest(embed, callback)`: build the request, send it, handle the reply. */
  method MakeAPIRequest(embed: Embed, p: ProviderFields, version: Option<string>, http: Http)
    returns (c: Completion, newVersion: Option<string>)
    requires Truthy(embed.options.embedURL)
    modifies embed
    ensures newVersion == VersionAfterRequest(version, http.packageVersion)
    ensures Step(embed.State(), c) == GetEmbedStep(p, version, http, old(embed.State()))
  {
    var options := embed.options;
    var requestOptions;
    requestOptions, newVersion := BuildRequestOptions(version, http.packageVersion, p.timeoutMs);
    var apiURL := BuildAPIURL(options, p.providerURL, p.format, p.queryParameters, http.stringify);
    requestOptions := requestOptions.(url := Some(apiURL));
    var reply := http.transport(requestOptions);
    c := HandleReply(embed, p.hooks, p.format, apiURL, reply, http.parseJson);
  }

  /** `getEmbed`: the URL check, then the request; the instance's version is updated only when a request is made. */
  method GetEmbed(embed: Embed, p: ProviderFields, version: Option<string>, http: Http)
    returns (c: Completion, newVersion: Option<string>)
    modifies embed
    ensures newVersion == if Truthy(old(embed.options.embedURL)) then VersionAfterRequest(version, http.packageVersion) else version
    ensures Step(embed.State(), c) == GetEmbedStep(p, version, http, old(embed.State()))
  {
    if !Truthy(embed.options.embedURL) {
      return Threw(EmbedValidationError(MissingURLMessage)), version;
    }
    c, newVersion := MakeAPIRequest(embed, p, version, http);
  }

  // ---------------------------------------------------------------- construction and configure

  /** `if (arg) this.field = arg`: a truthy argument becomes an own field, otherwise the prototype's value shows through. */
  function OwnOrInherited(arg: Option<string>, inherited: Option<string>): (v: Option<string>)
    ensures Truthy(arg) ==> v == arg
    ensures !Truthy(arg) ==> v == inherited
  {
    if Truthy(arg) then arg else inherited
  }

  /** `configure(configOptions)`: a truthy `timeoutMs` replaces the provider's timeout. */
  function ConfiguredTimeout(timeoutMs: int, config: EngineOptions): int
  {
    if TruthyNumber(config.timeoutMs) then config.timeoutMs.value else timeoutMs
  }

  /**
   * Configuring sets the timeout from the options when they give a non-zero
   * one and leaves it otherwise; configuring twice with the same options is
   * configuring once.
   */
  lemma ConfigureSpec(timeoutMs: int, config: EngineOptions)
    ensures config.timeoutMs.Some? && config.timeoutMs.value != 0 ==> ConfiguredTimeout(timeoutMs, config) == config.timeoutMs.value
    ensures config.timeoutMs.None? || config.timeoutMs.value == 0 ==> ConfiguredTimeout(timeoutMs, config) == timeoutMs
    ensures ConfiguredTimeout(ConfiguredTimeout(timeoutMs, config), config) == ConfiguredTimeout(timeoutMs, config)
  {
  }
}
