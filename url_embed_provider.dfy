/**
 * The generic provider: URL matching against an ordered pattern list, the
 * inherited `getEmbed` that only runs `filterData`, and the fallback
 * `errorMarkup`. Methods take the provider's fields as parameters in place of
 * JavaScript's `this`.
 */
module URLEmbedProvider {
  import opened Wrappers
  import opened Shared
  import opened Embeds

  /**
   * An overriding `errorMarkup(embed, error)`: it is given what the caller
   * passes, an embed as it stands at the call or something else, and the
   * error when the caller passes one.
   */
  type MarkupHook = (MarkupArgument, Option<Error>) -> string

  /**
   * What one call of `filterData(data)` does: the data object as it leaves it
   * (the hook may change its properties in place) and what it throws, if it
   * throws.
   */
  datatype Filtered = Filtered(data: Data, thrown: Option<Error>)

  /**
   * The overridable hooks of one provider instance. `filter` is `filterData`.
   * `errorMarkup` is Some only when the instance overrides the inherited one.
   * `statusMarkup` holds the `errorMarkup<status>` methods an oEmbed provider
   * may define, keyed by HTTP status code.
   */
  datatype Hooks = Hooks(filter: Data -> Filtered, errorMarkup: Option<MarkupHook>, statusMarkup: map<int, MarkupHook>)

  /**
   * The inherited hooks. The inherited `filterData` returns `data.html` and
   * changes nothing, so on a data object it never throws.
   */
  function DefaultHooks(): (h: Hooks)
    ensures forall d :: h.filter(d) == Filtered(d, None)
    ensures h.errorMarkup == None && h.statusMarkup == map[]
  {
    Hooks(d => Filtered(d, None), None, map[])
  }

  const MissingURLMessage: string := "embed.options object missing required property: embedURL"

  /** `url.match(undefined-receiver)`: what reading `match` on an undefined URL throws. */
  const UndefinedURLMatch: Error := TypeError("Cannot read properties of undefined (reading 'match')")

  /** `this.urlPatterns.length` on an instance with no pattern list: what reading `length` of undefined throws. */
  const UndefinedPatterns: Error := TypeError("Cannot read properties of undefined (reading 'length')")

  /**
   * The instance's `urlPatterns` after `if (urlPatterns) this.urlPatterns =
   * urlPatterns`: a list given to the constructor (an array, even an empty
   * one, is truthy) is its own; otherwise the list its class's prototype
   * holds shows through, which is undefined when there is none.
   */
  function ConstructedPatterns(arg: Option<seq<string>>, inherited: Option<seq<string>>): (v: Option<seq<string>>)
    ensures v.Some? <==> arg.Some? || inherited.Some?
    ensures arg.Some? ==> v == arg
    ensures arg.None? ==> v == inherited
  {
    if arg.Some? then arg else inherited
  }

  /** Some pattern of the list matches the URL. */
  predicate AnyPatternMatches(urlPatterns: seq<string>, url: string, matcher: Matcher)
  {
    exists i :: 0 <= i < |urlPatterns| && matcher(urlPatterns[i], url)
  }

  /**
   * What `isMatch` returns or throws: without a pattern list, the TypeError
   * of reading its length, whatever the URL; on a URL, whether any pattern
   * matches; on an undefined URL, false when there is no pattern to try and a
   * TypeError as soon as the first pattern is tried.
   */
  function PatternMatch(urlPatterns: Option<seq<string>>, embedURL: Option<string>, matcher: Matcher): Result<bool, Error>
  {
    match urlPatterns
    case None => Failure(UndefinedPatterns)
    case Some(ps) =>
      if embedURL.Some? then Success(AnyPatternMatches(ps, embedURL.value, matcher))
      else if |ps| == 0 then Success(false)
      else Failure(UndefinedURLMatch)
  }

  /**
   * `isMatch(embedURL)`: the loop with a `matches` flag that stops at the
   * first pattern that matches, whose condition first reads the length of the
   * pattern list. `probes` counts the patterns tried: on a match, the last one
   * tried is the first that matches.
   */
  method IsMatch(patterns: Option<seq<string>>, embedURL: Option<string>, matcher: Matcher)
    returns (r: Result<bool, Error>, ghost probes: nat)
    ensures r == PatternMatch(patterns, embedURL, matcher)
    ensures patterns.None? ==> r == Failure(UndefinedPatterns) && probes == 0
    ensures patterns == Some([]) ==> r == Success(false)
    ensures r == Success(true) ==> 0 < probes <= |patterns.value| && matcher(patterns.value[probes - 1], embedURL.value)
    ensures r == Success(true) ==> forall j :: 0 <= j < probes - 1 ==> !matcher(patterns.value[j], embedURL.value)
    ensures r == Success(false) ==> probes == |patterns.value|
  {
    probes := 0;
    if patterns.None? {
      return Failure(UndefinedPatterns), probes;
    }
    var urlPatterns := patterns.value;
    var matches := false;
    var idx := 0;
    while idx < |urlPatterns|
      invariant 0 <= idx <= |urlPatterns|
      invariant matches ==> idx == |urlPatterns| && embedURL.Some?
      invariant embedURL.None? ==> idx == 0
      invariant matches ==> 0 < probes <= |urlPatterns| && matcher(urlPatterns[probes - 1], embedURL.value)
      invariant !matches ==> probes == idx
      invariant embedURL.Some? && !matches ==> forall j :: 0 <= j < idx ==> !matcher(urlPatterns[j], embedURL.value)
      invariant embedURL.Some? && matches ==> forall j :: 0 <= j < probes - 1 ==> !matcher(urlPatterns[j], embedURL.value)
    {
      if embedURL.None? {
        return Failure(UndefinedURLMatch), probes;
      }
      probes := probes + 1;
      if matcher(urlPatterns[idx], embedURL.value) {
        matches := true;
        idx := |urlPatterns|;
      } else {
        idx := idx + 1;
      }
    }
    if matches {
      assert matcher(urlPatterns[probes - 1], embedURL.value);
      assert AnyPatternMatches(urlPatterns, embedURL.value, matcher);
    }
    r := Success(matches);
  }

  /** What the first argument of `errorMarkup` can be: an embed, a bare string, or undefined. */
  datatype MarkupArgument = EmbedArg(embed: EmbedState) | StringArg(s: string) | UndefinedArg

  /**
   * The inherited `errorMarkup(embed, error, errorMessage)`: an anchor whose
   * href and text are `embed.options.embedURL`. The error and the message play
   * no part in it. It reads `embed.options.embedURL`, which throws a TypeError
   * when what it was given is not an embed.
   */
  function ErrorMarkup(embed: MarkupArgument, error: Option<Error>, errorMessage: Option<string>): Result<string, Error>
  {
    match embed
    case EmbedArg(e) => Success(Anchor(Show(e.options.embedURL)))
    case StringArg(_) => Failure(TypeError("Cannot read properties of undefined (reading 'embedURL')"))
    case UndefinedArg => Failure(TypeError("Cannot read properties of undefined (reading 'options')"))
  }

  /**
   * On an embed the inherited markup is the anchor to its URL whatever the
   * error and message are; on anything else reading its options throws.
   */
  lemma ErrorMarkupIsAnchor(embed: MarkupArgument, error: Option<Error>, errorMessage: Option<string>)
    ensures embed.EmbedArg? ==> ErrorMarkup(embed, error, errorMessage) == ErrorMarkup(embed, None, None)
    ensures embed.EmbedArg? ==> var u := Show(embed.embed.options.embedURL);
      ErrorMarkup(embed, error, errorMessage).Success? && ErrorMarkup(embed, error, errorMessage).value[9..9 + |u|] == u
    ensures !embed.EmbedArg? ==> ErrorMarkup(embed, error, errorMessage).Failure?
  {
    if embed.EmbedArg? {
      AnchorRecoversURL(Show(embed.embed.options.embedURL));
    }
  }

  /** The markup `this.errorMarkup(embed, e)` yields: the override if there is one, else the inherited anchor. */
  function MarkupFor(hooks: Hooks, s: EmbedState, e: Error): string
  {
    match hooks.errorMarkup
    case Some(f) => f(EmbedArg(s), Some(e))
    case None => ErrorMarkup(EmbedArg(s), Some(e), None).value
  }

  /**
   * The inherited `getEmbed`: throw when the embed has no URL; otherwise run
   * `filterData` on the embed's data object and call back, replacing `data` by
   * the error markup and recording the error if `filterData` threw.
   */
  function GetEmbedStep(hooks: Hooks, s: EmbedState): Step
  {
    if !Truthy(s.options.embedURL) then Step(s, Threw(PlainError(MissingURLMessage)))
    else
      var f := hooks.filter(s.data);
      var s1 := s.(data := f.data);
      match f.thrown
      case None => Step(s1, CalledBack)
      case Some(e) => Step(s1.(data := map["html" := MarkupFor(hooks, s1, e)], error := Some(e)), CalledBack)
  }

  method GetEmbed(embed: Embed, hooks: Hooks) returns (c: Completion)
    modifies embed
    ensures Step(embed.State(), c) == GetEmbedStep(hooks, old(embed.State()))
  {
    if !Truthy(embed.options.embedURL) {
      return Threw(PlainError(MissingURLMessage));
    }
    var f := hooks.filter(embed.data);
    embed.data := f.data;
    if f.thrown.Some? {
      embed.data := map["html" := MarkupFor(hooks, embed.State(), f.thrown.value)];
      embed.error := Some(f.thrown.value);
    }
    c := CalledBack;
  }

  /**
   * The three ways the inherited `getEmbed` ends: it throws exactly when the
   * URL is missing or empty, leaving the embed alone; with a `filterData` that
   * returns, it calls back with the data object as `filterData` left it and
   * everything else unchanged (with the inherited hooks, the stub markup and
   * the null error stay as they were); with one that throws e, it calls back
   * with `data` replaced by `{html: errorMarkup(embed, e)}`, where the embed
   * holds what `filterData` left, and `error` set to e, and nothing else
   * changed.
   */
  lemma GetEmbedOutcomes(hooks: Hooks, s: EmbedState)
    ensures GetEmbedStep(hooks, s).completion.CalledBack? <==> Truthy(s.options.embedURL)
    ensures !Truthy(s.options.embedURL) ==> GetEmbedStep(hooks, s) == Step(s, Threw(PlainError(MissingURLMessage)))
    ensures Truthy(s.options.embedURL) && hooks.filter(s.data).thrown.None? ==>
      GetEmbedStep(hooks, s).state == s.(data := hooks.filter(s.data).data)
    ensures Truthy(s.options.embedURL) && hooks.filter(s.data).thrown.Some? ==>
      var e := hooks.filter(s.data).thrown.value;
      GetEmbedStep(hooks, s).state ==
        s.(data := map["html" := MarkupFor(hooks, s.(data := hooks.filter(s.data).data), e)], error := Some(e))
  {
  }

  /** With the inherited hooks, a fresh embed with a URL comes back with the stub markup and no error. */
  lemma DefaultProviderDeliversStub(s: EmbedState)
    requires Truthy(s.options.embedURL) && s.data == StubData() && s.error == None
    ensures GetEmbedStep(DefaultHooks(), s) == Step(s, CalledBack)
    ensures GetEmbedStep(DefaultHooks(), s).state.data["html"] == StubMarkup
  {
  }
}
