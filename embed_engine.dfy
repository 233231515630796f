/**
 * The engine: an ordered registry of provider instances in which a provider
 * replaces any registered one of the same name, and the resolution of an
 * embed by the first registered provider whose patterns match its URL, with
 * start and finish timestamps and a fallback for URLs nobody handles.
 */
module Engine {
  import opened Wrappers
  import opened Shared
  import opened Embeds
  import URLEmbedProvider
  import opened Providers

  /**
   * The engine's overridable hooks: `filterData`, applied to every resolved
   * embed's data before the callback, and an optional override of
   * `errorMarkupNoMatchingProvider`.
   */
  datatype EngineHooks = EngineHooks(filter: Data -> Data, noMatchMarkup: Option<EmbedState -> string>)

  /** The inherited hooks: `filterData` does nothing. */
  function DefaultEngineHooks(): (h: EngineHooks)
    ensures forall d :: h.filter(d) == d
    ensures h.noMatchMarkup == None
  {
    EngineHooks(d => d, None)
  }

  const UnknownProviderPrefix: string := "Unknown embed provider for url: "

  /** `errorMarkupNoMatchingProvider(embed)`: the override if any, else an anchor to the embed's URL. */
  function NoMatchMarkup(hooks: EngineHooks, s: EmbedState): string
  {
    match hooks.noMatchMarkup
    case Some(f) => f(s)
    case None => Anchor(Show(s.options.embedURL))
  }

  // ---------------------------------------------------------------- the registry

  function Names(registry: seq<Provider>): (ns: seq<Option<string>>)
    ensures |ns| == |registry| && forall i {:trigger ns[i]} :: 0 <= i < |registry| ==> ns[i] == registry[i].name
  {
    if |registry| == 0 then [] else [registry[0].name] + Names(registry[1..])
  }

  predicate DistinctNames(registry: seq<Provider>)
  {
    forall i, j :: 0 <= i < j < |registry| ==> registry[i].name != registry[j].name
  }

  /**
   * The registry after `registerProvider(provider)`: every entry with the
   * same name is replaced by it in place; if there was none, it is appended.
   */
  function Registered(registry: seq<Provider>, provider: Provider): seq<Provider>
  {
    if provider.name in Names(registry) then
      seq(|registry|, i requires 0 <= i < |registry| => if registry[i].name == provider.name then provider else registry[i])
    else registry + [provider]
  }

  /**
   * The Highlander rule: after registering, the provider is in the registry
   * and is the only entry with its name; entries with other names keep their
   * positions; the names are unchanged, or grow by the new name.
   */
  lemma RegisteredSpec(registry: seq<Provider>, provider: Provider)
    ensures var r := Registered(registry, provider);
      && provider in r
      && (forall i :: 0 <= i < |r| && r[i].name == provider.name ==> r[i] == provider)
      && (forall i :: 0 <= i < |registry| && registry[i].name != provider.name ==> r[i] == registry[i])
      && Names(r) == (if provider.name in Names(registry) then Names(registry) else Names(registry) + [provider.name])
  {
    RegisteredHasProvider(registry, provider);
    RegisteredKeepsOthers(registry, provider);
    RegisteredNames(registry, provider);
  }

  /** The provider is registered, and every entry with its name is it. */
  lemma RegisteredHasProvider(registry: seq<Provider>, provider: Provider)
    ensures provider in Registered(registry, provider)
    ensures forall i :: 0 <= i < |Registered(registry, provider)| && Registered(registry, provider)[i].name == provider.name
              ==> Registered(registry, provider)[i] == provider
  {
    var r := Registered(registry, provider);
    if provider.name in Names(registry) {
      var i :| 0 <= i < |registry| && Names(registry)[i] == provider.name;
      assert r[i] == provider;
    } else {
      assert r[|registry|] == provider;
      forall i | 0 <= i < |registry| ensures registry[i].name != provider.name {
        assert Names(registry)[i] == registry[i].name;
      }
    }
  }

  /** Entries with other names stay where they were. */
  lemma RegisteredKeepsOthers(registry: seq<Provider>, provider: Provider)
    ensures forall i :: 0 <= i < |registry| && registry[i].name != provider.name ==> Registered(registry, provider)[i] == registry[i]
  {
  }

  /** The names after registering: unchanged when the name was there, else one more at the end. */
  lemma RegisteredNames(registry: seq<Provider>, provider: Provider)
    ensures Names(Registered(registry, provider))
         == if provider.name in Names(registry) then Names(registry) else Names(registry) + [provider.name]
  {
    var r := Registered(registry, provider);
    if provider.name in Names(registry) {
      forall k | 0 <= k < |r| ensures Names(r)[k] == Names(registry)[k] {
        assert r[k].name == registry[k].name;
      }
      assert Names(r) == Names(registry);
    } else {
      forall k | 0 <= k < |r| ensures Names(r)[k] == (Names(registry) + [provider.name])[k] {
      }
      assert Names(r) == Names(registry) + [provider.name];
    }
  }

  /** Registration keeps the names distinct, so there is never more than one provider of a name. */
  lemma RegisteredKeepsDistinct(registry: seq<Provider>, provider: Provider)
    requires DistinctNames(registry)
    ensures DistinctNames(Registered(registry, provider))
  {
    var r := Registered(registry, provider);
    RegisteredSpec(registry, provider);
    forall i, j | 0 <= i < j < |r| ensures r[i].name != r[j].name {
      assert Names(r)[i] == r[i].name && Names(r)[j] == r[j].name;
      if provider.name !in Names(registry) && j == |registry| {
        assert Names(registry)[i] == registry[i].name;
      }
    }
  }

  /** Registering the same provider twice is registering it once. */
  lemma RegisteredIdempotent(registry: seq<Provider>, provider: Provider)
    ensures Registered(Registered(registry, provider), provider) == Registered(registry, provider)
  {
    var r := Registered(registry, provider);
    RegisteredSpec(registry, provider);
    var k :| 0 <= k < |r| && r[k] == provider;
    assert Names(r)[k] == provider.name;
    assert Registered(r, provider) == r;
  }

  /** Every provider's fields, in registry order. */
  function Views(registry: seq<Provider>): (vs: seq<ProviderView>)
    reads registry
    ensures |vs| == |registry| && forall i {:trigger vs[i]} :: 0 <= i < |registry| ==> vs[i] == registry[i].View()
  {
    if |registry| == 0 then [] else [registry[0].View()] + Views(registry[1..])
  }

  /** `Registered` on the providers' fields: the same-named entries are replaced, or the view is appended. */
  function RegisterView(views: seq<ProviderView>, v: ProviderView): seq<ProviderView>
  {
    if exists i :: 0 <= i < |views| && views[i].name == v.name then
      seq(|views|, i requires 0 <= i < |views| => if views[i].name == v.name then v else views[i])
    else views + [v]
  }

  lemma ViewsOfRegistered(registry: seq<Provider>, provider: Provider)
    ensures Views(Registered(registry, provider)) == RegisterView(Views(registry), provider.View())
  {
    if provider.name in Names(registry) {
      ViewsOfReplaced(registry, provider);
    } else {
      ViewsOfAppended(registry, provider);
    }
  }

  /** A provider whose name is registered replaces the same-named views in place. */
  lemma ViewsOfReplaced(registry: seq<Provider>, provider: Provider)
    requires provider.name in Names(registry)
    ensures Views(Registered(registry, provider)) == RegisterView(Views(registry), provider.View())
  {
    var vs := Views(registry);
    var r := Registered(registry, provider);
    var pv := provider.View();
    var i :| 0 <= i < |registry| && Names(registry)[i] == provider.name;
    assert vs[i].name == pv.name;
    var rv := RegisterView(vs, pv);
    assert |rv| == |vs| == |r|;
    forall k | 0 <= k < |r| ensures Views(r)[k] == rv[k] {
      assert vs[k] == registry[k].View() && vs[k].name == registry[k].name;
      assert r[k] == if registry[k].name == provider.name then provider else registry[k];
      assert rv[k] == if vs[k].name == pv.name then pv else vs[k];
    }
    SameViews(Views(r), rv);
  }

  /** Two lists of views that agree at every position are equal. */
  lemma SameViews(a: seq<ProviderView>, b: seq<ProviderView>)
    requires |a| == |b| && forall k :: 0 <= k < |a| ==> a[k] == b[k]
    ensures a == b
  {
  }

  /** A provider with a new name is appended, and so is its view. */
  lemma ViewsOfAppended(registry: seq<Provider>, provider: Provider)
    requires provider.name !in Names(registry)
    ensures Views(Registered(registry, provider)) == RegisterView(Views(registry), provider.View())
  {
    var vs := Views(registry);
    var r := Registered(registry, provider);
    var pv := provider.View();
    forall i | 0 <= i < |vs| ensures vs[i].name != pv.name {
      assert Names(registry)[i] == registry[i].name;
    }
    assert RegisterView(vs, pv) == vs + [pv];
    forall k | 0 <= k < |r| ensures Views(r)[k] == (vs + [pv])[k] {
    }
    assert Views(r) == vs + [pv];
  }

  /**
   * The registry `registerDefaultProviders` leaves: each default class, in
   * order, instantiated, configured twice and registered (which is the same as
   * configured once, `ConfigureSpec` shows).
   */
  function DefaultRegistration(views: seq<ProviderView>, classes: seq<ProviderClass>, config: EngineOptions): seq<ProviderView>
    decreases |classes|
  {
    if |classes| == 0 then views
    else DefaultRegistration(RegisterView(views, ConfigureView(InitialView(classes[0]), config)), classes[1..], config)
  }

  /** After registering, some entry has the view's name, and it is that view. */
  lemma RegisterViewSpec(views: seq<ProviderView>, v: ProviderView)
    ensures v in RegisterView(views, v)
    ensures |RegisterView(views, v)| >= |views|
    ensures forall w :: w in views && w.name != v.name ==> w in RegisterView(views, v)
    ensures forall w :: w in RegisterView(views, v) ==> w == v || w in views
  {
    var r := RegisterView(views, v);
    if exists i :: 0 <= i < |views| && views[i].name == v.name {
      var i :| 0 <= i < |views| && views[i].name == v.name;
      assert r[i] == v;
      forall w | w in views && w.name != v.name ensures w in r {
        var k :| 0 <= k < |views| && views[k] == w;
        assert r[k] == w;
      }
    } else {
      assert r[|views|] == v;
    }
  }

  /**
   * Registering the default classes never shrinks the registry; the last
   * class always ends up registered, configured with the engine options; and
   * every entry afterwards was there before or is a configured default.
   */
  lemma {:induction false} DefaultRegistrationSpec(views: seq<ProviderView>, classes: seq<ProviderClass>, config: EngineOptions)
    ensures var r := DefaultRegistration(views, classes, config);
      && |r| >= |views|
      && (|classes| > 0 ==> ConfigureView(InitialView(classes[|classes| - 1]), config) in r)
      && forall w :: w in r ==> w in views || exists k :: 0 <= k < |classes| && w == ConfigureView(InitialView(classes[k]), config)
    decreases |classes|
  {
    if |classes| > 0 {
      var v := ConfigureView(InitialView(classes[0]), config);
      var next := RegisterView(views, v);
      RegisterViewSpec(views, v);
      DefaultRegistrationSpec(next, classes[1..], config);
      var r := DefaultRegistration(views, classes, config);
      forall w | w in r
        ensures w in views || exists k :: 0 <= k < |classes| && w == ConfigureView(InitialView(classes[k]), config)
      {
        if w !in next {
          var k :| 0 <= k < |classes[1..]| && w == ConfigureView(InitialView(classes[1..][k]), config);
          assert w == ConfigureView(InitialView(classes[k + 1]), config);
        } else if w == v {
          assert w == ConfigureView(InitialView(classes[0]), config);
        }
      }
    }
  }

  lemma DefaultProvidersRegistered(config: EngineOptions)
    ensures var r := DefaultRegistration([], [VideopressClass, OldMtvVideoClass], config);
      && ConfigureView(InitialView(VideopressClass), config) in r
      && ConfigureView(InitialView(OldMtvVideoClass), config) in r
      && |r| == 2
  {
    var classes := [VideopressClass, OldMtvVideoClass];
    var v1 := ConfigureView(InitialView(VideopressClass), config);
    var v2 := ConfigureView(InitialView(OldMtvVideoClass), config);
    assert RegisterView([], v1) == [v1];
    assert v1.name != v2.name;
    assert RegisterView([v1], v2) == [v1, v2];
    assert classes[1..] == [OldMtvVideoClass] && classes[1..][1..] == [];
    assert DefaultRegistration([], classes, config) == [v1, v2];
  }

  // ---------------------------------------------------------------- resolution

  /**
   * The provider `getEmbed` picks from position `from` on: the first whose
   * `isMatch` is true; or the TypeError the first `isMatch` to run into an
   * undefined URL throws; or none.
   */
  function FindFrom(views: seq<ProviderView>, url: Option<string>, matcher: Matcher, from: nat): (r: Result<Option<nat>, Error>)
    requires from <= |views|
    ensures r.Success? && r.value.Some? ==> from <= r.value.value < |views|
    decreases |views| - from
  {
    if from == |views| then Success(None)
    else match URLEmbedProvider.PatternMatch(views[from].urlPatterns, url, matcher)
      case Failure(e) => Failure(e)
      case Success(true) => Success(Some(from))
      case Success(false) => FindFrom(views, url, matcher, from + 1)
  }

  /**
   * The search finds the first provider whose `isMatch` is true, all before it
   * saying false; it finds none exactly when every one says false; and it
   * throws only when it reaches a provider without a pattern list, or one
   * with patterns to try while the URL is undefined.
   */
  lemma {:induction false} FindFromSpec(views: seq<ProviderView>, url: Option<string>, matcher: Matcher, from: nat)
    requires from <= |views|
    ensures var r := FindFrom(views, url, matcher, from);
      r.Success? && r.value.Some? ==>
        var i := r.value.value;
        && URLEmbedProvider.PatternMatch(views[i].urlPatterns, url, matcher) == Success(true)
        && forall j :: from <= j < i ==> URLEmbedProvider.PatternMatch(views[j].urlPatterns, url, matcher) == Success(false)
    ensures FindFrom(views, url, matcher, from) == Success(None)
        <==> forall j :: from <= j < |views| ==> URLEmbedProvider.PatternMatch(views[j].urlPatterns, url, matcher) == Success(false)
    ensures FindFrom(views, url, matcher, from).Failure? ==>
      exists j :: from <= j < |views| && (views[j].urlPatterns.None? || (url.None? && |views[j].urlPatterns.value| > 0))
    decreases |views| - from
  {
    if from < |views| {
      FindFromSpec(views, url, matcher, from + 1);
    }
  }

  /**
   * How the engine sees `provider.getEmbed(embed, callback)`: a call
   * dispatched on the provider object, given its fields, the environment and
   * the embed, that leaves the embed in some state and ends somehow.
   */
  type Dispatcher = (ProviderView, Env, EmbedState) -> Step

  /**
   * What the engine relies on about a provider's `getEmbed`: it leaves the
   * options and the timestamps alone, which only the engine sets.
   */
  ghost predicate KeepsTiming(run: Dispatcher)
  {
    forall v, env, s ::
      && run(v, env, s).state.options == s.options
      && run(v, env, s).state.startedDate == s.startedDate
      && run(v, env, s).state.finishedDate == s.finishedDate
      && run(v, env, s).state.elapsedMs == s.elapsedMs
  }

  /** `run` is the providers' own `getEmbed`, chosen by the provider's kind. */
  ghost predicate Dispatches(run: Dispatcher)
  {
    forall v, env, s {:trigger EmbedStep(v, env, s)} :: run(v, env, s) == EmbedStep(v, env, s)
  }

  /** The dispatch the registered providers carry out. */
  function ProviderDispatch(): Dispatcher
  {
    (v, env, s) => EmbedStep(v, env, s)
  }

  /** Every kind of provider keeps the options and timestamps, so the engine's reliance on that is sound. */
  lemma ProviderDispatchSpec()
    ensures Dispatches(ProviderDispatch()) && KeepsTiming(ProviderDispatch())
  {
    var run := ProviderDispatch();
    forall v, env, s
      ensures && run(v, env, s).state.options == s.options
              && run(v, env, s).state.startedDate == s.startedDate
              && run(v, env, s).state.finishedDate == s.finishedDate
              && run(v, env, s).state.elapsedMs == s.elapsedMs
    {
      EmbedStepKeeps(v, env, s);
    }
  }

  /** `engine.getEmbed(embed, callback)` with the clock reading `started` at the start and `finished` at the end. */
  function EngineStep(views: seq<ProviderView>, run: Dispatcher, hooks: EngineHooks, env: Env, s: EmbedState, started: int, finished: int): Step
    requires KeepsTiming(run)
  {
    var s0 := Started(s, started);
    match FindFrom(views, s0.options.embedURL, env.matcher, 0)
    case Failure(e) => Step(s0, Threw(e))
    case Success(None) => Unmatched(hooks, s0, finished)
    case Success(Some(i)) => Resolved(views[i], run, hooks, env, s0, finished)
  }

  /**
   * No provider matched: the embed records an UnknownProviderError naming the
   * URL, its data becomes the no-match markup, and the finish is timestamped.
   */
  function Unmatched(hooks: EngineHooks, s0: EmbedState, finished: int): Step
    requires s0.startedDate.Some?
  {
    var s1 := s0.(error := Some(UnknownProviderError(UnknownProviderPrefix + Show(s0.options.embedURL))));
    Step(Finished(s1.(data := map["html" := NoMatchMarkup(hooks, s1)]), finished), CalledBack)
  }

  /**
   * Provider `v` matched: it resolves the embed; if it calls back, the
   * engine's callback runs `filterData` and timestamps the finish.
   */
  function Resolved(v: ProviderView, run: Dispatcher, hooks: EngineHooks, env: Env, s0: EmbedState, finished: int): Step
    requires KeepsTiming(run)
    requires s0.startedDate.Some?
  {
    var r := run(v, env, s0);
    if r.completion.CalledBack? then Step(Finished(r.state.(data := hooks.filter(r.state.data)), finished), CalledBack)
    else r
  }

  /** The providers' fields after `getEmbed`: only the provider that was used may have changed. */
  function ViewsAfter(views: seq<ProviderView>, env: Env, s: EmbedState, started: int): seq<ProviderView>
  {
    var s0 := Started(s, started);
    match FindFrom(views, s0.options.embedURL, env.matcher, 0)
    case Success(Some(i)) => views[i := ViewAfterEmbed(views[i], env, s0)]
    case _ => views
  }

  /** One step of the search. */
  lemma FindFromStep(views: seq<ProviderView>, url: Option<string>, matcher: Matcher, from: nat)
    requires from < |views|
    ensures var m := URLEmbedProvider.PatternMatch(views[from].urlPatterns, url, matcher);
      && (m.Failure? ==> FindFrom(views, url, matcher, from) == Failure(m.error))
      && (m == Success(true) ==> FindFrom(views, url, matcher, from) == Success(Some(from)))
      && (m == Success(false) ==> FindFrom(views, url, matcher, from) == FindFrom(views, url, matcher, from + 1))
  {
  }

  /** When an `isMatch` throws, the engine's `getEmbed` throws that error with only the start timestamped. */
  lemma ThrowStep(views: seq<ProviderView>, run: Dispatcher, hooks: EngineHooks, env: Env, s: EmbedState, started: int, finished: int)
    requires KeepsTiming(run)
    requires FindFrom(views, s.options.embedURL, env.matcher, 0).Failure?
    ensures EngineStep(views, run, hooks, env, s, started, finished) == Step(Started(s, started), Threw(FindFrom(views, s.options.embedURL, env.matcher, 0).error))
    ensures ViewsAfter(views, env, s, started) == views
  {
  }

  /** When nothing matches, the embed gets the no-match treatment and no provider changes. */
  lemma NoMatchStep(views: seq<ProviderView>, run: Dispatcher, hooks: EngineHooks, env: Env, s: EmbedState, started: int, finished: int)
    requires KeepsTiming(run)
    requires FindFrom(views, s.options.embedURL, env.matcher, 0) == Success(None)
    ensures EngineStep(views, run, hooks, env, s, started, finished) == Unmatched(hooks, Started(s, started), finished)
    ensures ViewsAfter(views, env, s, started) == views
  {
  }

  /** When provider `i` is the first to match, it resolves the embed. */
  lemma MatchStep(views: seq<ProviderView>, run: Dispatcher, hooks: EngineHooks, env: Env, s: EmbedState, started: int, finished: int, i: nat)
    requires KeepsTiming(run)
    requires i < |views| && FindFrom(views, s.options.embedURL, env.matcher, 0) == Success(Some(i))
    ensures EngineStep(views, run, hooks, env, s, started, finished) == Resolved(views[i], run, hooks, env, Started(s, started), finished)
  {
  }

  /** When provider `i` is the first to match, it is the only provider that may change. */
  lemma MatchViews(views: seq<ProviderView>, env: Env, s: EmbedState, started: int, i: nat)
    requires i < |views| && FindFrom(views, s.options.embedURL, env.matcher, 0) == Success(Some(i))
    ensures ViewsAfter(views, env, s, started) == views[i := ViewAfterEmbed(views[i], env, Started(s, started))]
  {
  }

  /**
   * How the engine's `getEmbed` ends. It always timestamps the start and keeps
   * the options. It calls back exactly when no `isMatch` throws and the chosen
   * provider, if any, calls back; then the finish is timestamped too. When no
   * provider matches, the error names the URL and `data` is only the no-match
   * markup.
   */
  lemma EngineStepSpec(views: seq<ProviderView>, run: Dispatcher, hooks: EngineHooks, env: Env, s: EmbedState, started: int, finished: int)
    requires KeepsTiming(run)
    ensures var r := EngineStep(views, run, hooks, env, s, started, finished);
      && r.state.options == s.options
      && r.state.startedDate == Some(started)
      && (r.completion.CalledBack? ==> r.state.finishedDate == Some(finished) && r.state.elapsedMs == Some(finished - started))
    ensures var r := EngineStep(views, run, hooks, env, s, started, finished);
      var found := FindFrom(views, s.options.embedURL, env.matcher, 0);
      && (found.Failure? ==> r.completion == Threw(found.error) && r.state == Started(s, started))
      && (found == Success(None) ==>
            && r.completion == CalledBack
            && r.state.error == Some(UnknownProviderError(UnknownProviderPrefix + Show(s.options.embedURL)))
            && r.state.data.Keys == {"html"})
      && (found.Success? && found.value.Some? ==>
            r.completion == run(views[found.value.value], env, Started(s, started)).completion)
  {
  }

  /** With the inherited hooks an unhandled URL comes back as an anchor to itself. */
  lemma NoMatchGivesAnchor(views: seq<ProviderView>, run: Dispatcher, env: Env, s: EmbedState, started: int, finished: int)
    requires KeepsTiming(run)
    requires FindFrom(views, s.options.embedURL, env.matcher, 0) == Success(None)
    ensures var r := EngineStep(views, run, DefaultEngineHooks(), env, s, started, finished);
      var u := Show(s.options.embedURL);
      r.state.data == map["html" := Anchor(u)] && r.state.data["html"][9..9 + |u|] == u
  {
    AnchorRecoversURL(Show(s.options.embedURL));
  }

  /** An empty registry matches nothing, so every embed gets the no-match treatment. */
  lemma EmptyRegistryMatchesNothing(run: Dispatcher, hooks: EngineHooks, env: Env, s: EmbedState, started: int, finished: int)
    requires KeepsTiming(run)
    ensures var r := EngineStep([], run, hooks, env, s, started, finished);
      && r.completion == CalledBack
      && r.state.error == Some(UnknownProviderError(UnknownProviderPrefix + Show(s.options.embedURL)))
  {
  }

  /**
   * `getEmbed` as written: the loop and the no-match branch read the embed's
   * own `embedURL` property (`embedURLProperty` here), which `Embed` never
   * declares, while the providers read `embed.options.embedURL`.
   */
  function EngineStepAsWritten(views: seq<ProviderView>, run: Dispatcher, hooks: EngineHooks, env: Env, s: EmbedState,
                               embedURLProperty: Option<string>, started: int, finished: int): Step
    requires KeepsTiming(run)
  {
    var s0 := Started(s, started);
    match FindFrom(views, embedURLProperty, env.matcher, 0)
    case Failure(e) => Step(s0, Threw(e))
    case Success(None) =>
      var s1 := s0.(error := Some(UnknownProviderError(UnknownProviderPrefix + Show(embedURLProperty))));
      var markup := match hooks.noMatchMarkup case Some(f) => f(s1) case None => Anchor(Show(embedURLProperty));
      Step(Finished(s1.(data := map["html" := markup]), finished), CalledBack)
    case Success(Some(i)) => Resolved(views[i], run, hooks, env, s0, finished)
  }

  /**
   * An embed whose `embedURL` property was never set makes the engine throw
   * the TypeError of `isMatch(undefined)` as soon as the first registered
   * provider has a pattern, whatever URL its options hold; reading the
   * options' URL instead, the search for a provider never throws when that
   * URL is given and every provider has a pattern list.
   */
  lemma UnsetEmbedURLThrowsAsWritten(views: seq<ProviderView>, run: Dispatcher, hooks: EngineHooks, env: Env, s: EmbedState,
                                     started: int, finished: int)
    requires KeepsTiming(run)
    requires |views| > 0 && views[0].urlPatterns.Some? && |views[0].urlPatterns.value| > 0
    ensures EngineStepAsWritten(views, run, hooks, env, s, None, started, finished).completion == Threw(URLEmbedProvider.UndefinedURLMatch)
    ensures s.options.embedURL.Some? && (forall j :: 0 <= j < |views| ==> views[j].urlPatterns.Some?) ==>
      FindFrom(views, s.options.embedURL, env.matcher, 0).Success?
  {
    FindFromStep(views, None, env.matcher, 0);
    FindFromSpec(views, s.options.embedURL, env.matcher, 0);
  }

  /** For a consumer that sets `embed.embedURL` to the options' URL, the as-written engine is the one modelled. */
  lemma AsWrittenAgreesWhenURLCopied(views: seq<ProviderView>, run: Dispatcher, hooks: EngineHooks, env: Env, s: EmbedState,
                                     started: int, finished: int)
    requires KeepsTiming(run)
    ensures EngineStepAsWritten(views, run, hooks, env, s, s.options.embedURL, started, finished)
         == EngineStep(views, run, hooks, env, s, started, finished)
  {
  }

  /**
   * The outcome of resolving several embeds one after another: the state each
   * step left its embed in, in step order; the final state at every position
   * of the list; the providers; and the completion.
   */
  datatype Batch = Batch(states: seq<EmbedState>, final: seq<EmbedState>, views: seq<ProviderView>, completion: Completion)

  /** A batch with `done` resolved in front of it. */
  function Prepend(done: seq<EmbedState>, b: Batch): Batch
  {
    b.(states := done + b.states)
  }

  /**
   * Positions that hold the same `Embed` object hold the same state, as the
   * states of a list of embeds always do: the list may name one embed twice.
   */
  predicate Coherent(embeds: seq<Embed>, states: seq<EmbedState>)
  {
    |embeds| == |states| && forall i, j :: 0 <= i < |states| && 0 <= j < |states| && embeds[i] == embeds[j] ==> states[i] == states[j]
  }

  /** The states once the embed at position `i` is in state `st`: every position that holds that object sees it. */
  function Spread(embeds: seq<Embed>, states: seq<EmbedState>, i: nat, st: EmbedState): (r: seq<EmbedState>)
    requires i < |embeds| == |states|
    ensures |r| == |states|
  {
    seq(|states|, k requires 0 <= k < |states| => if embeds[k] == embeds[i] then st else states[k])
  }

  /**
   * Updating one embed keeps the states coherent, changes exactly the
   * positions holding that object, and keeps every position's options when
   * the new state keeps them.
   */
  lemma SpreadSpec(embeds: seq<Embed>, states: seq<EmbedState>, i: nat, st: EmbedState)
    requires i < |embeds| && Coherent(embeds, states)
    ensures Coherent(embeds, Spread(embeds, states, i, st))
    ensures Spread(embeds, states, i, st)[i] == st
    ensures forall k :: 0 <= k < |states| && embeds[k] == embeds[i] ==> Spread(embeds, states, i, st)[k] == st
    ensures forall k :: 0 <= k < |states| && embeds[k] != embeds[i] ==> Spread(embeds, states, i, st)[k] == states[k]
    ensures st.options == states[i].options ==>
      forall k :: 0 <= k < |states| ==> Spread(embeds, states, i, st)[k].options == states[k].options
  {
  }

  /**
   * `getMultipleEmbeds` from position `from` on, one embed at a time in list
   * order: each is resolved from the state it has now, so an embed named a
   * second time is resolved again from where the first time left it, against
   * the providers as the previous steps left them; the batch stops at the
   * first embed that does not call back.
   */
  function MultiStep(views: seq<ProviderView>, run: Dispatcher, hooks: EngineHooks, env: Env, embeds: seq<Embed>,
                     states: seq<EmbedState>, clock: seq<(int, int)>, from: nat): (b: Batch)
    requires KeepsTiming(run)
    requires |clock| == |states| == |embeds| && from <= |states|
    ensures |b.states| <= |states| - from && |b.final| == |states| && |b.views| == |views|
    decreases |states| - from
  {
    if from == |states| then Batch([], states, views, CalledBack)
    else
      var r := EngineStep(views, run, hooks, env, states[from], clock[from].0, clock[from].1);
      var after := ViewsAfter(views, env, states[from], clock[from].0);
      var next := Spread(embeds, states, from, r.state);
      if !r.completion.CalledBack? then Batch([r.state], next, after, r.completion)
      else Prepend([r.state], MultiStep(after, run, hooks, env, embeds, next, clock, from + 1))
  }

  /** The first embed of a batch, resolved to `st` with completion `c`, leaving the providers at `after`. */
  lemma MultiStepFirst(views: seq<ProviderView>, run: Dispatcher, hooks: EngineHooks, env: Env, embeds: seq<Embed>,
                       states: seq<EmbedState>, clock: seq<(int, int)>, from: nat, st: EmbedState, c: Completion, after: seq<ProviderView>)
    requires KeepsTiming(run)
    requires |clock| == |states| == |embeds| && from < |states|
    requires Step(st, c) == EngineStep(views, run, hooks, env, states[from], clock[from].0, clock[from].1)
    requires after == ViewsAfter(views, env, states[from], clock[from].0)
    ensures c.CalledBack? ==>
      MultiStep(views, run, hooks, env, embeds, states, clock, from)
        == Prepend([st], MultiStep(after, run, hooks, env, embeds, Spread(embeds, states, from, st), clock, from + 1))
    ensures !c.CalledBack? ==> MultiStep(views, run, hooks, env, embeds, states, clock, from) == Batch([st], Spread(embeds, states, from, st), after, c)
  {
  }

  /** No position in `lo..hi` holds the object `e`. */
  predicate Unvisited(embeds: seq<Embed>, e: Embed, lo: int, hi: int)
    requires 0 <= lo && hi <= |embeds|
  {
    forall j :: lo <= j < hi ==> embeds[j] != e
  }

  /**
   * The k-th step resolves position `from + k` (its options), started at its
   * own clock reading, and finished at its own reading if the batch called
   * back or the step is not the last.
   */
  predicate StepsShape(b: Batch, states: seq<EmbedState>, clock: seq<(int, int)>, from: nat)
    requires |clock| == |states| && from + |b.states| <= |states|
  {
    forall k :: 0 <= k < |b.states| ==>
      && b.states[k].options == states[from + k].options
      && b.states[k].startedDate == Some(clock[from + k].0)
      && (k < |b.states| - 1 || b.completion.CalledBack? ==> b.states[k].finishedDate == Some(clock[from + k].1))
  }

  /** A position whose object no step reached keeps its state. */
  predicate UnreachedKept(b: Batch, embeds: seq<Embed>, states: seq<EmbedState>, from: nat)
    requires |embeds| == |states| == |b.final| && from + |b.states| <= |states|
  {
    forall k :: 0 <= k < |states| && Unvisited(embeds, embeds[k], from, from + |b.states|) ==> b.final[k] == states[k]
  }

  /** A position whose object some step reached ends in the state the last step on that object left. */
  predicate LastVisitWins(b: Batch, embeds: seq<Embed>, from: nat)
    requires |embeds| == |b.final| && from + |b.states| <= |embeds|
  {
    forall m, k :: 0 <= m < |b.states| && 0 <= k < |embeds| && embeds[k] == embeds[from + m] ==>
      Unvisited(embeds, embeds[k], from + m + 1, from + |b.states|) ==> b.final[k] == b.states[m]
  }

  /**
   * A batch from `from` that calls back has one step per remaining position;
   * one that does not has a step for every position up to the one that
   * failed. The steps have their own positions and clock readings; a position
   * whose object no step reached keeps its state, and any other ends in the
   * state the last step on its object left.
   */
  predicate BatchShape(b: Batch, embeds: seq<Embed>, states: seq<EmbedState>, clock: seq<(int, int)>, from: nat)
    requires |clock| == |states| == |embeds| && from <= |states|
  {
    && |b.states| <= |states| - from && |b.final| == |states|
    && (b.completion.CalledBack? ==> |b.states| == |states| - from)
    && (!b.completion.CalledBack? ==> |b.states| > 0)
    && StepsShape(b, states, clock, from)
    && UnreachedKept(b, embeds, states, from)
    && LastVisitWins(b, embeds, from)
  }

  lemma PrependSteps(st: EmbedState, rest: Batch, embeds: seq<Embed>, states: seq<EmbedState>, clock: seq<(int, int)>, from: nat)
    requires |clock| == |states| && from + 1 + |rest.states| <= |states| && Coherent(embeds, states)
    requires st.options == states[from].options && st.startedDate == Some(clock[from].0) && st.finishedDate == Some(clock[from].1)
    requires StepsShape(rest, Spread(embeds, states, from, st), clock, from + 1)
    ensures StepsShape(Prepend([st], rest), states, clock, from)
  {
    var next := Spread(embeds, states, from, st);
    SpreadSpec(embeds, states, from, st);
    var b := Prepend([st], rest);
    forall k | 1 <= k < |b.states|
      ensures b.states[k] == rest.states[k - 1] && b.states[k].options == states[from + k].options
    {
      assert next[from + k].options == states[from + k].options;
    }
  }

  lemma PrependUnreached(st: EmbedState, rest: Batch, embeds: seq<Embed>, states: seq<EmbedState>, from: nat)
    requires from + 1 + |rest.states| <= |states| == |rest.final| && Coherent(embeds, states)
    requires UnreachedKept(rest, embeds, Spread(embeds, states, from, st), from + 1)
    ensures UnreachedKept(Prepend([st], rest), embeds, states, from)
  {
    SpreadSpec(embeds, states, from, st);
    var end := from + 1 + |rest.states|;
    forall k | 0 <= k < |states| && Unvisited(embeds, embeds[k], from, end) ensures rest.final[k] == states[k] {
      assert embeds[from] != embeds[k];
      assert Unvisited(embeds, embeds[k], from + 1, end);
    }
  }

  lemma PrependLastVisit(st: EmbedState, rest: Batch, embeds: seq<Embed>, states: seq<EmbedState>, from: nat)
    requires from + 1 + |rest.states| <= |states| == |rest.final| && Coherent(embeds, states)
    requires UnreachedKept(rest, embeds, Spread(embeds, states, from, st), from + 1)
    requires LastVisitWins(rest, embeds, from + 1)
    ensures LastVisitWins(Prepend([st], rest), embeds, from)
  {
    SpreadSpec(embeds, states, from, st);
    var b := Prepend([st], rest);
    var end := from + |b.states|;
    forall m, k | 0 <= m < |b.states| && 0 <= k < |embeds| && embeds[k] == embeds[from + m] && Unvisited(embeds, embeds[k], from + m + 1, end)
      ensures b.final[k] == b.states[m]
    {
      if m == 0 {
        assert Spread(embeds, states, from, st)[k] == st;
      } else {
        assert rest.states[m - 1] == b.states[m];
        assert embeds[k] == embeds[(from + 1) + (m - 1)];
      }
    }
  }

  /** A first step of the right shape that called back, in front of a well-shaped rest computed from the spread states. */
  lemma PrependShape(st: EmbedState, rest: Batch, embeds: seq<Embed>, states: seq<EmbedState>, clock: seq<(int, int)>, from: nat)
    requires |clock| == |states| && from < |states| && Coherent(embeds, states)
    requires st.options == states[from].options && st.startedDate == Some(clock[from].0) && st.finishedDate == Some(clock[from].1)
    requires BatchShape(rest, embeds, Spread(embeds, states, from, st), clock, from + 1)
    ensures BatchShape(Prepend([st], rest), embeds, states, clock, from)
  {
    PrependSteps(st, rest, embeds, states, clock, from);
    PrependUnreached(st, rest, embeds, states, from);
    PrependLastVisit(st, rest, embeds, states, from);
  }

  /** A batch that stops at its first step is that step's state spread over the positions holding its object. */
  lemma LastShape(st: EmbedState, c: Completion, after: seq<ProviderView>, embeds: seq<Embed>, states: seq<EmbedState>,
                  clock: seq<(int, int)>, from: nat)
    requires |clock| == |states| && from < |states| && Coherent(embeds, states) && !c.CalledBack?
    requires st.options == states[from].options && st.startedDate == Some(clock[from].0)
    ensures BatchShape(Batch([st], Spread(embeds, states, from, st), after, c), embeds, states, clock, from)
  {
    SpreadSpec(embeds, states, from, st);
    var b := Batch([st], Spread(embeds, states, from, st), after, c);
    forall k | 0 <= k < |states| && Unvisited(embeds, embeds[k], from, from + 1) ensures b.final[k] == states[k] {
      assert embeds[from] != embeds[k];
    }
  }

  lemma {:induction false} MultiStepSpec(views: seq<ProviderView>, run: Dispatcher, hooks: EngineHooks, env: Env, embeds: seq<Embed>,
                                         states: seq<EmbedState>, clock: seq<(int, int)>, from: nat)
    requires KeepsTiming(run)
    requires |clock| == |states| && from <= |states| && Coherent(embeds, states)
    ensures BatchShape(MultiStep(views, run, hooks, env, embeds, states, clock, from), embeds, states, clock, from)
    decreases |states| - from
  {
    if from < |states| {
      EngineStepSpec(views, run, hooks, env, states[from], clock[from].0, clock[from].1);
      var r := EngineStep(views, run, hooks, env, states[from], clock[from].0, clock[from].1);
      var after := ViewsAfter(views, env, states[from], clock[from].0);
      MultiStepFirst(views, run, hooks, env, embeds, states, clock, from, r.state, r.completion, after);
      SpreadSpec(embeds, states, from, r.state);
      var next := Spread(embeds, states, from, r.state);
      if r.completion.CalledBack? {
        MultiStepSpec(after, run, hooks, env, embeds, next, clock, from + 1);
        PrependShape(r.state, MultiStep(after, run, hooks, env, embeds, next, clock, from + 1), embeds, states, clock, from);
      } else {
        LastShape(r.state, r.completion, after, embeds, states, clock, from);
      }
    }
  }

  /** No two positions hold the same `Embed` object. */
  predicate DistinctEmbeds(embeds: seq<Embed>)
  {
    forall i, j :: 0 <= i < j < |embeds| ==> embeds[i] != embeds[j]
  }

  /**
   * When the embeds are distinct objects, the final states are the states
   * before `from`, then the steps' results in order, then the states the batch
   * did not reach.
   */
  lemma DistinctBatchFinal(views: seq<ProviderView>, run: Dispatcher, hooks: EngineHooks, env: Env, embeds: seq<Embed>,
                           states: seq<EmbedState>, clock: seq<(int, int)>, from: nat)
    requires KeepsTiming(run)
    requires |clock| == |states| == |embeds| && from <= |states| && DistinctEmbeds(embeds)
    ensures var b := MultiStep(views, run, hooks, env, embeds, states, clock, from);
      b.final == states[..from] + b.states + states[from + |b.states|..]
  {
    MultiStepSpec(views, run, hooks, env, embeds, states, clock, from);
    var b := MultiStep(views, run, hooks, env, embeds, states, clock, from);
    var end := from + |b.states|;
    var w := states[..from] + b.states + states[end..];
    forall k | 0 <= k < |states| ensures b.final[k] == w[k] {
      if from <= k < end {
        assert embeds[k] == embeds[from + (k - from)];
        assert Unvisited(embeds, embeds[k], k + 1, end);
      } else {
        assert Unvisited(embeds, embeds[k], from, end);
      }
    }
  }

  /**
   * A list that names one embed twice: the second step resolves it again from
   * the state the first step left, and both positions end in the state of the
   * second step.
   */
  lemma RepeatedEmbed(views: seq<ProviderView>, run: Dispatcher, hooks: EngineHooks, env: Env, e: Embed, s: EmbedState, clock: seq<(int, int)>)
    requires KeepsTiming(run) && |clock| == 2
    ensures var b := MultiStep(views, run, hooks, env, [e, e], [s, s], clock, 0);
      var r := EngineStep(views, run, hooks, env, s, clock[0].0, clock[0].1);
      var r' := EngineStep(ViewsAfter(views, env, s, clock[0].0), run, hooks, env, r.state, clock[1].0, clock[1].1);
      r.completion.CalledBack? ==> b.states == [r.state, r'.state] && b.final == [r'.state, r'.state] && b.completion == r'.completion
  {
    var r := EngineStep(views, run, hooks, env, s, clock[0].0, clock[0].1);
    var after := ViewsAfter(views, env, s, clock[0].0);
    MultiStepFirst(views, run, hooks, env, [e, e], [s, s], clock, 0, r.state, r.completion, after);
    var next := Spread([e, e], [s, s], 0, r.state);
    assert next == [r.state, r.state];
    var r' := EngineStep(after, run, hooks, env, r.state, clock[1].0, clock[1].1);
    MultiStepFirst(after, run, hooks, env, [e, e], next, clock, 1, r'.state, r'.completion, ViewsAfter(after, env, r.state, clock[1].0));
    assert Spread([e, e], next, 1, r'.state) == [r'.state, r'.state];
  }

  function States(embeds: seq<Embed>): (ss: seq<EmbedState>)
    reads embeds
    ensures |ss| == |embeds| && forall i :: 0 <= i < |embeds| ==> ss[i] == embeds[i].State()
  {
    if |embeds| == 0 then [] else [embeds[0].State()] + States(embeds[1..])
  }

  /** The states of a list of embeds are coherent, whether or not it names an embed twice. */
  lemma StatesCoherent(embeds: seq<Embed>)
    ensures Coherent(embeds, States(embeds))
  {
  }

  /** When every position holding another object still has its state, the states are those spread from position `i`. */
  lemma StatesAfterOne(embeds: seq<Embed>, i: nat, states: seq<EmbedState>)
    requires i < |embeds| == |states|
    requires forall k :: 0 <= k < |embeds| && embeds[k] != embeds[i] ==> embeds[k].State() == states[k]
    ensures States(embeds) == Spread(embeds, states, i, embeds[i].State())
  {
  }

  /** When every provider but the one at `idx` still has its view, only that view changed. */
  lemma ViewsAfterOne(registry: seq<Provider>, idx: nat, views: seq<ProviderView>)
    requires idx < |registry| == |views|
    requires forall j :: 0 <= j < |registry| && j != idx ==> registry[j].View() == views[j]
    ensures Views(registry) == views[idx := registry[idx].View()]
  {
  }

  // ---------------------------------------------------------------- the engine object

  class EmbedEngine {
    var providerRegistry: seq<Provider>
    const defaultProviderClasses: seq<ProviderClass>
    const engineOptions: EngineOptions
    const hooks: EngineHooks
    /** How `provider.getEmbed` is dispatched: the providers' own `getEmbed`. */
    ghost const dispatch: Dispatcher

    /** The invariant registration keeps: no two registered providers share a name. */
    ghost predicate Valid()
      reads this
    {
      DistinctNames(providerRegistry)
    }

    /** The dispatch is the providers' `getEmbed`, which keeps the options and timestamps. */
    ghost predicate Dispatching()
    {
      Dispatches(dispatch) && KeepsTiming(dispatch)
    }

    /**
     * `new EmbedEngine(engineOptions)`. The classes found in the default
     * provider directory are given as a list.
     */
    constructor (engineOptions: EngineOptions, defaultProviderClasses: seq<ProviderClass>, hooks: EngineHooks)
      ensures Valid() && Dispatching() && providerRegistry == []
      ensures this.engineOptions == engineOptions && this.defaultProviderClasses == defaultProviderClasses && this.hooks == hooks
    {
      this.providerRegistry := [];
      this.defaultProviderClasses := defaultProviderClasses;
      this.engineOptions := engineOptions;
      this.hooks := hooks;
      this.dispatch := ProviderDispatch();
      ProviderDispatchSpec();
    }

    /** `_configureProvider(provider)`. */
    method ConfigureProvider(provider: Provider)
      modifies provider
      ensures provider.View() == ConfigureView(old(provider.View()), engineOptions)
    {
      provider.Configure(engineOptions);
    }

    /** `registerProvider(provider)`: configure it, then replace every same-named entry or append it. */
    method RegisterProvider(provider: Provider)
      modifies this, provider
      ensures provider.View() == ConfigureView(old(provider.View()), engineOptions)
      ensures providerRegistry == Registered(old(providerRegistry), provider)
      ensures old(Valid()) ==> Valid()
    {
      ConfigureProvider(provider);
      var providerExists := false;
      var idx := 0;
      ghost var before := providerRegistry;
      while idx < |providerRegistry|
        invariant |providerRegistry| == |before| && 0 <= idx <= |before|
        invariant providerExists <==> exists i :: 0 <= i < idx && before[i].name == provider.name
        invariant forall i :: 0 <= i < idx ==> providerRegistry[i] == if before[i].name == provider.name then provider else before[i]
        invariant forall i :: idx <= i < |before| ==> providerRegistry[i] == before[i]
        modifies this
      {
        if providerRegistry[idx].name == provider.name {
          providerRegistry := providerRegistry[idx := provider];
          providerExists := true;
        }
        idx := idx + 1;
      }
      if !providerExists {
        providerRegistry := providerRegistry + [provider];
      }
      assert providerExists <==> provider.name in Names(before) by {
        if providerExists {
          var i :| 0 <= i < |before| && before[i].name == provider.name;
          assert Names(before)[i] == provider.name;
        }
      }
      if old(Valid()) {
        RegisteredKeepsDistinct(before, provider);
      }
    }

    /**
     * `registerDefaultProviders()`: instantiate each default class, configure
     * it and register it (registering configures it again).
     */
    method RegisterDefaultProviders()
      modifies this
      ensures Views(providerRegistry) == DefaultRegistration(old(Views(providerRegistry)), defaultProviderClasses, engineOptions)
      ensures old(Valid()) ==> Valid()
    {
      ghost var start := Views(providerRegistry);
      var i := 0;
      while i < |defaultProviderClasses|
        invariant 0 <= i <= |defaultProviderClasses|
        invariant DefaultRegistration(Views(providerRegistry), defaultProviderClasses[i..], engineOptions)
               == DefaultRegistration(start, defaultProviderClasses, engineOptions)
        invariant old(Valid()) ==> Valid()
      {
        RegisterDefaultProvider(defaultProviderClasses[i]);
        assert defaultProviderClasses[i..][1..] == defaultProviderClasses[i + 1..];
        i := i + 1;
      }
    }

    /** One turn of `registerDefaultProviders`' loop: a new instance of `cls`, configured and registered. */
    method RegisterDefaultProvider(cls: ProviderClass)
      modifies this
      ensures Views(providerRegistry) == RegisterView(old(Views(providerRegistry)), ConfigureView(InitialView(cls), engineOptions))
      ensures old(Valid()) ==> Valid()
    {
      var provider := NewConfigured(cls);
      RegisterNew(provider);
      ConfigureSpec(InitialView(cls), engineOptions);
    }

    /** `registerProvider` for an instance not yet in the registry, seen through the providers' fields. */
    method RegisterNew(provider: Provider)
      requires provider !in providerRegistry
      modifies this, provider
      ensures provider.View() == ConfigureView(old(provider.View()), engineOptions)
      ensures Views(providerRegistry) == RegisterView(old(Views(providerRegistry)), provider.View())
      ensures old(Valid()) ==> Valid()
    {
      ghost var registryBefore := providerRegistry;
      ghost var viewsBefore := Views(registryBefore);
      RegisterProvider(provider);
      forall k | 0 <= k < |registryBefore| ensures registryBefore[k].View() == viewsBefore[k] {
        assert registryBefore[k] != provider;
      }
      assert Views(registryBefore) == viewsBefore;
      ViewsOfRegistered(registryBefore, provider);
    }

    /** A new instance of `cls`, configured with the engine options. */
    method NewConfigured(cls: ProviderClass) returns (provider: Provider)
      ensures fresh(provider) && provider.View() == ConfigureView(InitialView(cls), engineOptions)
    {
      provider := Instantiate(cls);
      ConfigureProvider(provider);
    }

    /**
     * `getEmbed(embed, callback)`: timestamp the start, try the providers in
     * registry order and let the first that matches resolve the embed, then
     * run `filterData`, timestamp the finish and call back; with no match
     * record an UnknownProviderError and the no-match markup.
     */
    method GetEmbed(embed: Embed, env: Env, started: int, finished: int) returns (c: Completion)
      requires Valid() && Dispatching()
      modifies embed, providerRegistry
      ensures Step(embed.State(), c) == EngineStep(old(Views(providerRegistry)), dispatch, hooks, env, old(embed.State()), started, finished)
      ensures Views(providerRegistry) == ViewsAfter(old(Views(providerRegistry)), env, old(embed.State()), started)
    {
      ghost var s := embed.State();
      ghost var views := Views(providerRegistry);
      Start(embed, started);
      var found := FindProvider(embed.options.embedURL, env.matcher);
      if found.Failure? {
        ThrowStep(views, dispatch, hooks, env, s, started, finished);
        return Threw(found.error);
      }
      if found.value.Some? {
        MatchStep(views, dispatch, hooks, env, s, started, finished, found.value.value);
        MatchViews(views, env, s, started, found.value.value);
        c := UseProvider(embed, found.value.value, env, views, Started(s, started), finished);
      } else {
        NoMatchStep(views, dispatch, hooks, env, s, started, finished);
        c := ReportNoMatch(embed, Started(s, started), finished);
      }
    }

    /**
     * The body of `getEmbed`'s loop once provider `idx`, the first to match,
     * is found: it resolves the embed, and its callback runs `filterData` and
     * timestamps the finish. Only that provider may change, since names, and
     * so providers, are distinct.
     */
    method UseProvider(embed: Embed, idx: nat, env: Env, ghost views: seq<ProviderView>, ghost s0: EmbedState, finished: int) returns (c: Completion)
      requires Valid() && Dispatching() && idx < |providerRegistry| && Views(providerRegistry) == views
      requires embed.State() == s0 && s0.startedDate.Some?
      modifies embed, providerRegistry[idx]
      ensures Step(embed.State(), c) == Resolved(views[idx], dispatch, hooks, env, s0, finished)
      ensures Views(providerRegistry) == views[idx := ViewAfterEmbed(views[idx], env, s0)]
    {
      var provider := providerRegistry[idx];
      assert forall j :: 0 <= j < |providerRegistry| && j != idx ==> providerRegistry[j] != provider;
      c := provider.GetEmbed(embed, env);
      assert dispatch(views[idx], env, s0) == EmbedStep(views[idx], env, s0);
      if c.CalledBack? {
        Deliver(embed, finished);
      }
      ViewsAfterOne(providerRegistry, idx, views);
    }

    /** The engine's callback: `filterData`, then the finish timestamp. */
    method Deliver(embed: Embed, finished: int)
      requires embed.startedDate.Some?
      modifies embed
      ensures embed.State() == Finished(old(embed.State()).(data := hooks.filter(old(embed.data))), finished)
    {
      embed.data := hooks.filter(embed.data);
      embed.MarkFinished(finished);
    }

    /**
     * The search in `getEmbed`'s loop: the first provider whose `isMatch` is
     * true, or the error the first `isMatch` to throw throws, or none.
     */
    method FindProvider(url: Option<string>, matcher: Matcher) returns (found: Result<Option<nat>, Error>)
      ensures found == FindFrom(Views(providerRegistry), url, matcher, 0)
    {
      ghost var views := Views(providerRegistry);
      var idx: nat := 0;
      while idx < |providerRegistry|
        invariant 0 <= idx <= |providerRegistry|
        invariant FindFrom(views, url, matcher, 0) == FindFrom(views, url, matcher, idx)
        invariant Views(providerRegistry) == views
      {
        var provider := providerRegistry[idx];
        assert provider.urlPatterns == views[idx].urlPatterns;
        var matches := provider.IsMatch(url, matcher);
        FindFromStep(views, url, matcher, idx);
        if matches.Failure? {
          return Failure(matches.error);
        }
        if matches.value {
          return Success(Some(idx));
        }
        idx := idx + 1;
      }
      return Success(None);
    }

    /** The end of `getEmbed` when no provider matched: the error, the no-match markup, the finish and the callback. */
    method ReportNoMatch(embed: Embed, ghost s0: EmbedState, finished: int) returns (c: Completion)
      requires embed.State() == s0 && s0.startedDate.Some?
      modifies embed
      ensures Step(embed.State(), c) == Unmatched(hooks, s0, finished)
      ensures Views(providerRegistry) == old(Views(providerRegistry))
    {
      embed.error := Some(UnknownProviderError(UnknownProviderPrefix + Show(embed.options.embedURL)));
      embed.data := map["html" := NoMatchMarkup(hooks, embed.State())];
      embed.MarkFinished(finished);
      c := CalledBack;
    }

    /** `embed.markStarted()`, which leaves the providers alone. */
    method Start(embed: Embed, started: int)
      modifies embed
      ensures embed.State() == Started(old(embed.State()), started)
      ensures Views(providerRegistry) == old(Views(providerRegistry))
    {
      embed.MarkStarted(started);
    }

    /**
     * `getMultipleEmbeds(embeds, callback)`, with the embeds resolved one after
     * another in list order; the results are the embeds themselves, in the
     * same order. The list may name one embed more than once.
     */
    method GetMultipleEmbeds(embeds: seq<Embed>, env: Env, clock: seq<(int, int)>) returns (c: Completion, results: seq<Embed>)
      requires Valid() && Dispatching() && |clock| == |embeds|
      modifies embeds, providerRegistry
      ensures var b := MultiStep(old(Views(providerRegistry)), dispatch, hooks, env, embeds, old(States(embeds)), clock, 0);
        && c == b.completion && Views(providerRegistry) == b.views && States(embeds) == b.final
      ensures c.CalledBack? ==> results == embeds
    {
      c := GetEmbedsFrom(embeds, 0, env, clock, Views(providerRegistry), States(embeds));
      results := if c.CalledBack? then embeds else [];
    }

    /** The batch from position i on, from the providers' views `views` and the embeds' current states `states`. */
    method GetEmbedsFrom(embeds: seq<Embed>, i: nat, env: Env, clock: seq<(int, int)>, ghost views: seq<ProviderView>, ghost states: seq<EmbedState>)
      returns (c: Completion)
      requires Valid() && Dispatching() && i <= |embeds| && |clock| == |embeds|
      requires Views(providerRegistry) == views && States(embeds) == states
      modifies embeds, providerRegistry
      ensures providerRegistry == old(providerRegistry)
      ensures var b := MultiStep(views, dispatch, hooks, env, embeds, states, clock, i);
        (c, Views(providerRegistry), States(embeds)) == (b.completion, b.views, b.final)
      decreases |embeds| - i
    {
      if i == |embeds| {
        return CalledBack;
      }
      c := ResolveNext(embeds, i, env, clock, views, states);
      if c.CalledBack? {
        c := GetEmbedsFrom(embeds, i + 1, env, clock, Views(providerRegistry), States(embeds));
      }
    }

    /**
     * One embed of the batch: `getEmbed` on the embed at position i, with its
     * clock readings. Every position that holds the same object sees its new
     * state; the other embeds keep theirs. The batch from i on is this step
     * followed, when it called back, by the batch from i + 1 on.
     */
    method ResolveNext(embeds: seq<Embed>, i: nat, env: Env, clock: seq<(int, int)>, ghost views: seq<ProviderView>, ghost states: seq<EmbedState>)
      returns (c: Completion)
      requires Valid() && Dispatching() && i < |embeds| && |clock| == |embeds|
      requires Views(providerRegistry) == views && States(embeds) == states
      modifies embeds[i], providerRegistry
      ensures Step(embeds[i].State(), c) == EngineStep(views, dispatch, hooks, env, states[i], clock[i].0, clock[i].1)
      ensures Views(providerRegistry) == ViewsAfter(views, env, states[i], clock[i].0)
      ensures States(embeds) == Spread(embeds, states, i, embeds[i].State())
      ensures providerRegistry == old(providerRegistry)
      ensures c.CalledBack? ==>
        MultiStep(views, dispatch, hooks, env, embeds, states, clock, i)
          == Prepend([embeds[i].State()], MultiStep(Views(providerRegistry), dispatch, hooks, env, embeds, States(embeds), clock, i + 1))
      ensures !c.CalledBack? ==>
        MultiStep(views, dispatch, hooks, env, embeds, states, clock, i) == Batch([embeds[i].State()], States(embeds), Views(providerRegistry), c)
    {
      c := GetEmbed(embeds[i], env, clock[i].0, clock[i].1);
      StatesAfterOne(embeds, i, states);
      MultiStepFirst(views, dispatch, hooks, env, embeds, states, clock, i, embeds[i].State(), c, Views(providerRegistry));
    }
  }
}
