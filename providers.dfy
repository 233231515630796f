/**
 * Provider instances. The source's class hierarchy (the generic provider, the
 * oEmbed provider and the two default providers that override one method
 * each) becomes one class whose `kind` says which `getEmbed` and which
 * `configure` the instance has.
 */
module Providers {
  import opened Wrappers
  import opened Shared
  import opened Embeds
  import URLEmbedProvider
  import OEmbedProvider
  import Videopress
  import OldMtvVideo

  /**
   * Which implementation an instance runs: the generic one, the oEmbed one
   * (every oEmbed subclass without overrides), Videopress, or the old MTV one.
   */
  datatype Kind = GenericKind | OEmbedKind | VideopressKind | OldMtvVideoKind

  /** Everything outside the model a provider talks to: the regex search and the HTTP side. */
  datatype Env = Env(matcher: Matcher, http: OEmbedProvider.Http)

  /**
   * A provider's fields as one value. `providerURL`, `format`, `timeoutMs`,
   * `queryParameters` and `version` belong to oEmbed providers; the other
   * kinds carry None, "" and 0 there and never read them. `queryParameters`
   * is the instance's `defaultProviderQueryStringParameters`.
   */
  datatype ProviderView = ProviderView(
    kind: Kind,
    name: Option<string>,
    urlPatterns: Option<seq<string>>,
    providerURL: Option<string>,
    format: string,
    hooks: URLEmbedProvider.Hooks,
    timeoutMs: int,
    queryParameters: Option<Query>,
    version: Option<string>)

  predicate IsOEmbed(v: ProviderView)
  {
    v.kind == OEmbedKind || v.kind == VideopressKind
  }

  function Fields(v: ProviderView): OEmbedProvider.ProviderFields
  {
    OEmbedProvider.ProviderFields(v.providerURL, v.format, v.timeoutMs, v.queryParameters, v.hooks)
  }

  /**
   * A provider class the engine can instantiate with `new ProviderClass()`:
   * the two default providers modelled here, or any subclass of the generic
   * or the oEmbed provider that only sets prototype properties and hooks.
   */
  datatype ProviderClass =
    | VideopressClass
    | OldMtvVideoClass
    | GenericClass(name: Option<string>, urlPatterns: Option<seq<string>>, hooks: URLEmbedProvider.Hooks)
    | OEmbedClass(name: Option<string>, urlPatterns: Option<seq<string>>, providerURL: Option<string>, format: string, hooks: URLEmbedProvider.Hooks)

  /** The fields of `new ProviderClass()`: prototype values, the default timeout, no parameters, no version. */
  function InitialView(cls: ProviderClass): (v: ProviderView)
    ensures v.queryParameters == None && v.version == None
    ensures IsOEmbed(v) ==> v.timeoutMs == OEmbedProvider.DefaultTimeoutMs
  {
    match cls
    case VideopressClass =>
      ProviderView(VideopressKind, Some(Videopress.Name), Some(Videopress.URLPatterns), Some(Videopress.ProviderURL), Videopress.Format,
        URLEmbedProvider.DefaultHooks(), OEmbedProvider.DefaultTimeoutMs, None, None)
    case OldMtvVideoClass =>
      ProviderView(OldMtvVideoKind, Some(OldMtvVideo.Name), Some(OldMtvVideo.URLPatterns), None, "", URLEmbedProvider.DefaultHooks(), 0, None, None)
    case GenericClass(name, patterns, hooks) =>
      ProviderView(GenericKind, name, patterns, None, "", hooks, 0, None, None)
    case OEmbedClass(name, patterns, url, format, hooks) =>
      ProviderView(OEmbedKind, name, patterns, url, format, hooks, OEmbedProvider.DefaultTimeoutMs, None, None)
  }

  /**
   * `configure(engineOptions)` by kind: nothing for the generic and the old
   * MTV provider, the timeout rule for an oEmbed provider, and the timeout
   * rule followed by the `for` parameter for Videopress.
   */
  function ConfigureView(v: ProviderView, config: EngineOptions): ProviderView
  {
    match v.kind
    case GenericKind => v
    case OldMtvVideoKind => v
    case OEmbedKind => v.(timeoutMs := OEmbedProvider.ConfiguredTimeout(v.timeoutMs, config))
    case VideopressKind =>
      v.(timeoutMs := OEmbedProvider.ConfiguredTimeout(v.timeoutMs, config),
         queryParameters := Some(Videopress.QueryParameters(config)))
  }

  /**
   * Configuring changes only the timeout and the query parameters, leaves
   * the generic and the old MTV provider alone, and is idempotent, so the
   * engine's configuring a default provider twice is configuring it once.
   */
  lemma ConfigureSpec(v: ProviderView, config: EngineOptions)
    ensures var c := ConfigureView(v, config);
      c.(timeoutMs := v.timeoutMs, queryParameters := v.queryParameters) == v
    ensures !IsOEmbed(v) ==> ConfigureView(v, config) == v
    ensures v.kind == VideopressKind ==>
      ConfigureView(v, config).queryParameters == Some([("for", Text(Videopress.ForParameter(config)))])
    ensures ConfigureView(ConfigureView(v, config), config) == ConfigureView(v, config)
  {
    OEmbedProvider.ConfigureSpec(v.timeoutMs, config);
  }

  /**
   * Videopress's `configure`, called twice: the second call's referrer rule
   * replaces the parameters the first one set, its timeout wins when it gives
   * a non-zero one and the first call's stays otherwise, and a second call
   * with the same options changes nothing.
   */
  lemma VideopressConfigureSpec(v: ProviderView, first: EngineOptions, second: EngineOptions)
    requires v.kind == VideopressKind
    ensures var twice := ConfigureView(ConfigureView(v, first), second);
      && twice.queryParameters == Some([("for", Text(Videopress.ForParameter(second)))])
      && (second.timeoutMs.Some? && second.timeoutMs.value != 0 ==> twice.timeoutMs == second.timeoutMs.value)
      && (second.timeoutMs.None? || second.timeoutMs.value == 0 ==> twice.timeoutMs == ConfigureView(v, first).timeoutMs)
      && twice.(timeoutMs := v.timeoutMs, queryParameters := v.queryParameters) == v
    ensures ConfigureView(ConfigureView(v, first), first) == ConfigureView(v, first)
  {
    OEmbedProvider.ConfigureSpec(v.timeoutMs, first);
    OEmbedProvider.ConfigureSpec(ConfigureView(v, first).timeoutMs, second);
  }

  /** What resolving an embed does to it, by kind (the corrected versions of the two with findings). */
  function EmbedStep(v: ProviderView, env: Env, s: EmbedState): Step
  {
    match v.kind
    case GenericKind => URLEmbedProvider.GetEmbedStep(v.hooks, s)
    case OldMtvVideoKind => OldMtvVideo.GetEmbedStep(v.hooks, s)
    case OEmbedKind => OEmbedProvider.GetEmbedStep(Fields(v), v.version, env.http, s)
    case VideopressKind => OEmbedProvider.GetEmbedStep(Fields(v), v.version, env.http, s)
  }

  /** The provider's fields after resolving an embed: an oEmbed provider that made a request may have read its version. */
  function ViewAfterEmbed(v: ProviderView, env: Env, s: EmbedState): ProviderView
  {
    if IsOEmbed(v) && Truthy(s.options.embedURL) then v.(version := OEmbedProvider.VersionAfterRequest(v.version, env.http.packageVersion))
    else v
  }

  /**
   * Resolving an embed never changes a provider except for the version,
   * which is set only when it was falsy, and kept from then on.
   */
  lemma ViewAfterEmbedSpec(v: ProviderView, env: Env, s: EmbedState)
    ensures ViewAfterEmbed(v, env, s).(version := v.version) == v
    ensures Truthy(v.version) ==> ViewAfterEmbed(v, env, s) == v
    ensures env.http.packageVersion != "" ==>
      ViewAfterEmbed(ViewAfterEmbed(v, env, s), env, s) == ViewAfterEmbed(v, env, s)
  {
  }

  /**
   * Resolving an embed touches only its data, its error and its API URL: the
   * options and the timing fields are those it had.
   */
  lemma EmbedStepKeeps(v: ProviderView, env: Env, s: EmbedState)
    ensures var r := EmbedStep(v, env, s).state;
      && r.options == s.options && r.startedDate == s.startedDate
      && r.finishedDate == s.finishedDate && r.elapsedMs == s.elapsedMs
  {
    if IsOEmbed(v) && Truthy(s.options.embedURL) {
      var p := Fields(v);
      OEmbedProvider.AfterReplySpec(p.hooks, p.format, s,
        OEmbedProvider.APIURL(s.options, p.providerURL, p.format, p.queryParameters, env.http.stringify),
        env.http.transport(OEmbedProvider.RequestFor(p, v.version, env.http, s.options)), env.http.parseJson);
    }
  }

  class Provider {
    const kind: Kind
    const name: Option<string>
    const urlPatterns: Option<seq<string>>
    const providerURL: Option<string>
    const format: string
    const hooks: URLEmbedProvider.Hooks
    var timeoutMs: int
    var queryParameters: Option<Query>
    var version: Option<string>

    function View(): ProviderView
      reads this
    {
      ProviderView(kind, name, urlPatterns, providerURL, format, hooks, timeoutMs, queryParameters, version)
    }

    /**
     * `new URLEmbedProvider(urlPatterns)`, or a subclass of it that gives a
     * name and may give a prototype pattern list `inherited`; without either
     * list the instance has none.
     */
    constructor Generic(name: Option<string>, urlPatterns: Option<seq<string>>, inherited: Option<seq<string>>, hooks: URLEmbedProvider.Hooks)
      ensures View() == InitialView(GenericClass(name, URLEmbedProvider.ConstructedPatterns(urlPatterns, inherited), hooks))
    {
      this.kind := GenericKind;
      this.name := name;
      this.urlPatterns := URLEmbedProvider.ConstructedPatterns(urlPatterns, inherited);
      this.providerURL := None;
      this.format := "";
      this.hooks := hooks;
      this.timeoutMs := 0;
      this.queryParameters := None;
      this.version := None;
    }

    /**
     * `new OEmbedProvider(providerURL, urlPatterns, format)` for a class whose
     * prototype holds `inheritedURL`, `inheritedPatterns` and
     * `inheritedFormat`: a truthy argument becomes the instance's own value,
     * otherwise the prototype's is seen. The timeout is the prototype's and
     * the version is not read yet.
     */
    constructor OEmbed(name: Option<string>, urlPatterns: Option<seq<string>>, providerURL: Option<string>, format: Option<string>,
                       inheritedURL: Option<string>, inheritedPatterns: Option<seq<string>>, inheritedFormat: string, hooks: URLEmbedProvider.Hooks)
      ensures kind == OEmbedKind && this.name == name && this.hooks == hooks
      ensures this.urlPatterns == URLEmbedProvider.ConstructedPatterns(urlPatterns, inheritedPatterns)
      ensures this.providerURL == (if Truthy(providerURL) then providerURL else inheritedURL)
      ensures this.format == (if Truthy(format) then format.value else inheritedFormat)
      ensures timeoutMs == OEmbedProvider.DefaultTimeoutMs && queryParameters == None && version == None
    {
      this.kind := OEmbedKind;
      this.name := name;
      this.urlPatterns := URLEmbedProvider.ConstructedPatterns(urlPatterns, inheritedPatterns);
      this.providerURL := OEmbedProvider.OwnOrInherited(providerURL, inheritedURL);
      this.format := if Truthy(format) then format.value else inheritedFormat;
      this.hooks := hooks;
      this.timeoutMs := OEmbedProvider.DefaultTimeoutMs;
      this.queryParameters := None;
      this.version := None;
    }

    /** `new Videopress()`: every field comes from the prototypes; the `for` parameter is set only by `configure`. */
    constructor VideopressProvider()
      ensures View() == InitialView(VideopressClass)
    {
      this.kind := VideopressKind;
      this.name := Some(Videopress.Name);
      this.urlPatterns := URLEmbedProvider.ConstructedPatterns(None, Some(Videopress.URLPatterns));
      this.providerURL := OEmbedProvider.OwnOrInherited(None, Some(Videopress.ProviderURL));
      this.format := Videopress.Format;
      this.hooks := URLEmbedProvider.DefaultHooks();
      this.timeoutMs := OEmbedProvider.DefaultTimeoutMs;
      this.queryParameters := None;
      this.version := None;
    }

    constructor OldMtvVideoProvider()
      ensures View() == InitialView(OldMtvVideoClass)
    {
      this.kind := OldMtvVideoKind;
      this.name := Some(OldMtvVideo.Name);
      this.urlPatterns := URLEmbedProvider.ConstructedPatterns(None, Some(OldMtvVideo.URLPatterns));
      this.providerURL := None;
      this.format := "";
      this.hooks := URLEmbedProvider.DefaultHooks();
      this.timeoutMs := 0;
      this.queryParameters := None;
      this.version := None;
    }

    /** `configure(engineOptions)` as this instance's class defines it. */
    method Configure(config: EngineOptions)
      modifies this
      ensures View() == ConfigureView(old(View()), config)
    {
      if kind == OEmbedKind || kind == VideopressKind {
        if TruthyNumber(config.timeoutMs) {
          timeoutMs := config.timeoutMs.value;
        }
      }
      if kind == VideopressKind {
        queryParameters := Some(Videopress.QueryParameters(config));
      }
    }

    /** `isMatch(embedURL)`, inherited by every kind. */
    method IsMatch(embedURL: Option<string>, matcher: Matcher) returns (r: Result<bool, Error>)
      ensures r == URLEmbedProvider.PatternMatch(urlPatterns, embedURL, matcher)
      ensures r == Success(true) ==> embedURL.Some? && exists i :: 0 <= i < |urlPatterns.value| && matcher(urlPatterns.value[i], embedURL.value)
      ensures r.Failure? <==> urlPatterns.None? || (embedURL.None? && |urlPatterns.value| > 0)
      ensures urlPatterns.None? ==> r == Failure(URLEmbedProvider.UndefinedPatterns)
    {
      ghost var probes;
      r, probes := URLEmbedProvider.IsMatch(urlPatterns, embedURL, matcher);
    }

    /** `getEmbed(embed, callback)` as this instance's class defines it. */
    method GetEmbed(embed: Embed, env: Env) returns (c: Completion)
      modifies this, embed
      ensures Step(embed.State(), c) == EmbedStep(old(View()), env, old(embed.State()))
      ensures View() == ViewAfterEmbed(old(View()), env, old(embed.State()))
    {
      if kind == GenericKind {
        c := URLEmbedProvider.GetEmbed(embed, hooks);
      } else if kind == OldMtvVideoKind {
        c := OldMtvVideo.GetEmbed(embed, hooks);
      } else {
        c, version := OEmbedProvider.GetEmbed(embed, Fields(View()), version, env.http);
      }
    }
  }

  /** `new ProviderClass()`. */
  method Instantiate(cls: ProviderClass) returns (p: Provider)
    ensures fresh(p) && p.View() == InitialView(cls)
  {
    if cls.VideopressClass? {
      p := new Provider.VideopressProvider();
    } else if cls.OldMtvVideoClass? {
      p := new Provider.OldMtvVideoProvider();
    } else if cls.GenericClass? {
      p := new Provider.Generic(cls.name, None, cls.urlPatterns, cls.hooks);
    } else {
      p := new Provider.OEmbed(cls.name, None, None, None, cls.providerURL, cls.urlPatterns, cls.format, cls.hooks);
    }
  }

  /** The two default providers modelled here differ in name and in kind, so registering both keeps both. */
  lemma DefaultProvidersDiffer()
    ensures InitialView(VideopressClass).name != InitialView(OldMtvVideoClass).name
    ensures InitialView(VideopressClass).kind != InitialView(OldMtvVideoClass).kind
  {
  }
}
