/**
 * The provider for older MTV video pages. It makes no request: it reads the
 * numeric video id from the page URL and writes an iframe for the MTV player.
 */
module OldMtvVideo {
  import opened Wrappers
  import opened Shared
  import opened Embeds
  import opened URLEmbedProvider

  const Name: string := "old_mtv_video"

  /** The source writes `'^http://www\.mtv\.com/videos/misc/.*'`; in a JavaScript string `\.` is just `.`. */
  const URLPatterns: seq<string> := ["^http://www.mtv.com/videos/misc/.*"]

  /** The literal part of the search pattern `/videos/misc/([0-9]+)`. */
  const Marker: string := "/videos/misc/"

  const IframePrefix: string := "<iframe src=\"http://media.mtvnservices.com/embed/mgid:uma:video:mtv.com:"
  const IframeSuffix: string := "\" width=\"512\" height=\"288\" frameborder=\"0\"></iframe>"

  /** `matches[1]` when `matches` is null. */
  const NoMatch: Error := TypeError("Cannot read properties of null (reading '1')")

  predicate IsDigit(c: char)
  {
    '0' <= c <= '9'
  }

  /** The pattern matches at position i: the marker, then at least one digit. */
  predicate IdAt(s: string, i: int)
  {
    0 <= i && i + |Marker| < |s| && s[i..i + |Marker|] == Marker && IsDigit(s[i + |Marker|])
  }

  /** The leftmost position at or after `from` where the pattern matches, as a regular-expression search finds it. */
  function LeftmostMatchFrom(s: string, from: nat): (r: Option<nat>)
    requires from <= |s|
    ensures r.Some? ==> from <= r.value && r.value + |Marker| < |s|
    decreases |s| - from
  {
    if from + |Marker| >= |s| then None
    else if IdAt(s, from) then Some(from)
    else LeftmostMatchFrom(s, from + 1)
  }

  /** The search finds a match exactly when there is one at or after `from`, and then the leftmost. */
  lemma {:induction false} LeftmostMatchFromSpec(s: string, from: nat)
    requires from <= |s|
    ensures var r := LeftmostMatchFrom(s, from);
      r.Some? ==> from <= r.value && IdAt(s, r.value) && forall j :: from <= j < r.value ==> !IdAt(s, j)
    ensures LeftmostMatchFrom(s, from).None? ==> forall j :: from <= j ==> !IdAt(s, j)
    decreases |s| - from
  {
    if from + |Marker| < |s| && !IdAt(s, from) {
      LeftmostMatchFromSpec(s, from + 1);
    }
  }

  function LeftmostMatch(s: string): (r: Option<nat>)
    ensures r.Some? ==> r.value + |Marker| < |s|
  {
    LeftmostMatchFrom(s, 0)
  }

  /** The greedy `[0-9]+`: the longest run of digits at the start of s. */
  function DigitRun(s: string): (r: string)
    ensures |r| <= |s|
  {
    if |s| == 0 || !IsDigit(s[0]) then "" else [s[0]] + DigitRun(s[1..])
  }

  /** The run is a prefix of s, all digits, and stops at the first non-digit. */
  lemma {:induction false} DigitRunSpec(s: string)
    ensures DigitRun(s) == s[..|DigitRun(s)|]
    ensures forall k :: 0 <= k < |DigitRun(s)| ==> IsDigit(DigitRun(s)[k])
    ensures |DigitRun(s)| < |s| ==> !IsDigit(s[|DigitRun(s)|])
  {
    if |s| > 0 && IsDigit(s[0]) {
      DigitRunSpec(s[1..]);
      var r := DigitRun(s[1..]);
      assert DigitRun(s) == [s[0]] + r;
      forall k | 0 <= k < |DigitRun(s)| ensures IsDigit(DigitRun(s)[k]) {
        if k > 0 {
          assert DigitRun(s)[k] == r[k - 1];
        }
      }
    }
  }

  /** `embedURL.match('/videos/misc/([0-9]+)')[1]`, or None where the match is null. */
  function VideoId(url: string): (id: Option<string>)
  {
    match LeftmostMatch(url)
    case None => None
    case Some(i) => Some(DigitRun(url[i + |Marker|..]))
  }

  /** There is an id exactly when the pattern occurs, and then it is a non-empty run of digits. */
  lemma VideoIdSpec(url: string)
    ensures VideoId(url).Some? <==> exists i :: IdAt(url, i)
    ensures VideoId(url).Some? ==> |VideoId(url).value| > 0 && forall k :: 0 <= k < |VideoId(url).value| ==> IsDigit(VideoId(url).value[k])
  {
    LeftmostMatchFromSpec(url, 0);
    match LeftmostMatch(url)
    case None =>
    case Some(i) =>
      DigitRunSpec(url[i + |Marker|..]);
  }

  function IframeMarkup(id: string): (markup: string)
  {
    IframePrefix + id + IframeSuffix
  }

  /** The id can be read back from the iframe, so different ids give different markup. */
  lemma IframeNamesId(id: string, id': string)
    ensures |IframeMarkup(id)| == |IframePrefix| + |id| + |IframeSuffix|
    ensures IframeMarkup(id)[|IframePrefix|..|IframePrefix| + |id|] == id
    ensures IframeMarkup(id) == IframeMarkup(id') ==> id == id'
  {
    var m := IframeMarkup(id);
    assert m[|IframePrefix|..|IframePrefix| + |id|] == id;
    if IframeMarkup(id) == IframeMarkup(id') {
      assert |id| == |id'|;
      assert IframeMarkup(id')[|IframePrefix|..|IframePrefix| + |id'|] == id';
    }
  }

  /** What `this.errorMarkup(embedURL)` is handed: the URL string, or undefined. */
  function URLArgument(embedURL: Option<string>): MarkupArgument
  {
    if embedURL.Some? then StringArg(embedURL.value) else UndefinedArg
  }

  /**
   * The `catch` as written: `this.errorMarkup(embedURL)` is handed the URL
   * string (or undefined) in place of the embed, and no error. The inherited
   * `errorMarkup` reads the options of what it was given and throws a
   * TypeError, which escapes to the caller with the embed as it stands; an
   * override returns its markup, which becomes the whole `data`, and the
   * error is recorded before the callback.
   */
  function CatchAsWritten(hooks: Hooks, s: EmbedState, embedURL: Option<string>, e: Error): Step
  {
    match hooks.errorMarkup
    case None => Step(s, Threw(ErrorMarkup(URLArgument(embedURL), None, None).error))
    case Some(f) => Step(s.(data := map["html" := f(URLArgument(embedURL), None)], error := Some(e)), CalledBack)
  }

  /**
   * `getEmbed` as written. The search throws on an undefined URL and reading
   * `matches[1]` throws when nothing matched; both land in the `catch`. When
   * `filterData` throws after the iframe was written, the `catch` sees the
   * data object as `filterData` left it.
   */
  function GetEmbedStepAsWritten(hooks: Hooks, s: EmbedState): Step
  {
    match s.options.embedURL
    case None => CatchAsWritten(hooks, s, None, UndefinedURLMatch)
    case Some(url) =>
      match VideoId(url)
      case None => CatchAsWritten(hooks, s, Some(url), NoMatch)
      case Some(id) =>
        var s1 := s.(data := s.data["html" := IframeMarkup(id)]);
        var f := hooks.filter(s1.data);
        var s2 := s1.(data := f.data);
        match f.thrown
        case None => Step(s2, CalledBack)
        case Some(e) => CatchAsWritten(hooks, s2, Some(url), e)
  }

  /** The error that lands in the `catch` when there is no id to read. */
  function LookupError(embedURL: Option<string>): Error
  {
    if embedURL.None? then UndefinedURLMatch else NoMatch
  }

  /**
   * `getEmbed` as the `catch` means it, the way the generic provider's does:
   * the error markup of the embed replaces `data`, the error is recorded and
   * the callback fires.
   */
  function GetEmbedStep(hooks: Hooks, s: EmbedState): Step
  {
    var id := if s.options.embedURL.Some? then VideoId(s.options.embedURL.value) else None;
    match id
    case None =>
      var e := LookupError(s.options.embedURL);
      Step(s.(data := map["html" := MarkupFor(hooks, s, e)], error := Some(e)), CalledBack)
    case Some(id) =>
      var s1 := s.(data := s.data["html" := IframeMarkup(id)]);
      var f := hooks.filter(s1.data);
      var s2 := s1.(data := f.data);
      match f.thrown
      case None => Step(s2, CalledBack)
      case Some(e) => Step(s2.(data := map["html" := MarkupFor(hooks, s2, e)], error := Some(e)), CalledBack)
  }

  /**
   * As written, with the inherited `errorMarkup`, a URL with no id (or no
   * URL) never reaches the callback: the `catch` throws a TypeError and leaves
   * the embed as it was; corrected, the embed comes back with the lookup error
   * recorded.
   */
  lemma NoIdThrowsAsWritten(hooks: Hooks, s: EmbedState)
    requires s.options.embedURL.None? || VideoId(s.options.embedURL.value).None?
    requires hooks.errorMarkup.None?
    ensures GetEmbedStepAsWritten(hooks, s).completion.Threw?
    ensures GetEmbedStepAsWritten(hooks, s).completion.thrown.TypeError?
    ensures GetEmbedStepAsWritten(hooks, s).state == s
    ensures GetEmbedStep(hooks, s).completion == CalledBack
    ensures GetEmbedStep(hooks, s).state.error == Some(LookupError(s.options.embedURL))
  {
  }

  /**
   * With an overriding `errorMarkup`, a URL with no id (or no URL) does reach
   * the callback as written, but the override is handed the URL (or
   * undefined) and no error, where the corrected version hands it the embed
   * and the lookup error.
   */
  lemma NoIdOverrideAsWritten(hooks: Hooks, s: EmbedState)
    requires s.options.embedURL.None? || VideoId(s.options.embedURL.value).None?
    requires hooks.errorMarkup.Some?
    ensures var e := LookupError(s.options.embedURL);
      GetEmbedStepAsWritten(hooks, s)
        == Step(s.(data := map["html" := hooks.errorMarkup.value(URLArgument(s.options.embedURL), None)], error := Some(e)), CalledBack)
    ensures var e := LookupError(s.options.embedURL);
      GetEmbedStep(hooks, s)
        == Step(s.(data := map["html" := hooks.errorMarkup.value(EmbedArg(s), Some(e))], error := Some(e)), CalledBack)
  {
  }

  /** A page URL from the old site without a numeric id shows it, with the inherited `errorMarkup`. */
  lemma NoIdExample(hooks: Hooks, s: EmbedState)
    requires s.options.embedURL == Some("http://www.mtv.com/videos/misc/")
    requires hooks.errorMarkup.None?
    ensures GetEmbedStepAsWritten(hooks, s).completion
         == Threw(TypeError("Cannot read properties of undefined (reading 'embedURL')"))
    ensures GetEmbedStep(hooks, s).completion == CalledBack
  {
    var url := "http://www.mtv.com/videos/misc/";
    assert forall k :: 0 <= k < |url| ==> !IsDigit(url[k]);
    LeftmostMatchFromSpec(url, 0);
    assert LeftmostMatch(url).None?;
  }

  /**
   * The corrected `getEmbed` always calls back. With an id and a `filterData`
   * that returns, `data` is what `filterData` left of the data with the
   * iframe for the leftmost id in `html`, and nothing else changes; with a
   * `filterData` that changes nothing, that is the iframe itself. Otherwise
   * the error is recorded and `data` is just the error markup.
   */
  lemma GetEmbedOutcomes(hooks: Hooks, s: EmbedState)
    ensures GetEmbedStep(hooks, s).completion == CalledBack
    ensures s.options.embedURL.Some? && VideoId(s.options.embedURL.value).Some? ==>
      var s1 := s.(data := s.data["html" := IframeMarkup(VideoId(s.options.embedURL.value).value)]);
      hooks.filter(s1.data).thrown.None? ==> GetEmbedStep(hooks, s).state == s1.(data := hooks.filter(s1.data).data)
    ensures s.options.embedURL.Some? && VideoId(s.options.embedURL.value).Some? ==>
      var s1 := s.(data := s.data["html" := IframeMarkup(VideoId(s.options.embedURL.value).value)]);
      hooks.filter(s1.data) == Filtered(s1.data, None) ==>
        GetEmbedStep(hooks, s).state == s1 && GetEmbedStep(hooks, s).state.data["html"] == IframeMarkup(VideoId(s.options.embedURL.value).value)
    ensures GetEmbedStep(hooks, s).state.error != s.error ==>
      GetEmbedStep(hooks, s).state.error.Some? && GetEmbedStep(hooks, s).state.data.Keys == {"html"}
    ensures GetEmbedStep(hooks, s).state.options == s.options && GetEmbedStep(hooks, s).state.oembedAPIURL == s.oembedAPIURL
  {
  }

  /**
   * Both versions agree whenever the `try` block completes; with the
   * inherited `errorMarkup`, the version as written calls back only then.
   */
  lemma AsWrittenAgreesOnSuccess(hooks: Hooks, s: EmbedState)
    requires s.options.embedURL.Some? && VideoId(s.options.embedURL.value).Some?
    requires hooks.filter(s.data["html" := IframeMarkup(VideoId(s.options.embedURL.value).value)]).thrown.None?
    ensures GetEmbedStep(hooks, s) == GetEmbedStepAsWritten(hooks, s)
    ensures GetEmbedStepAsWritten(hooks, s).completion == CalledBack
  {
  }

  /** With the inherited `errorMarkup`, the version as written calls back exactly when the `try` block completes. */
  lemma AsWrittenCallsBackOnlyOnSuccess(hooks: Hooks, s: EmbedState)
    requires hooks.errorMarkup.None?
    ensures GetEmbedStepAsWritten(hooks, s).completion == CalledBack <==>
      && s.options.embedURL.Some? && VideoId(s.options.embedURL.value).Some?
      && hooks.filter(s.data["html" := IframeMarkup(VideoId(s.options.embedURL.value).value)]).thrown.None?
  {
  }

  /** A typical page URL yields its numeric id. */
  lemma VideoIdExample()
    ensures VideoId("/videos/misc/123/x") == Some("123")
  {
    var url := "/videos/misc/123/x";
    assert IdAt(url, 0);
    assert url[13..] == "123/x";
    assert DigitRun("123/x") == "123" by {
      assert "123/x"[1..] == "23/x";
      assert "23/x"[1..] == "3/x";
      assert "3/x"[1..] == "/x";
    }
  }

  /** The corrected `getEmbed`, statement by statement. */
  method GetEmbed(embed: Embed, hooks: Hooks) returns (c: Completion)
    modifies embed
    ensures Step(embed.State(), c) == GetEmbedStep(hooks, old(embed.State()))
  {
    var embedURL := embed.options.embedURL;
    var id := if embedURL.Some? then VideoId(embedURL.value) else None;
    var thrown: Option<Error>;
    if id.None? {
      thrown := Some(LookupError(embedURL));
    } else {
      embed.data := embed.data["html" := IframeMarkup(id.value)];
      var f := hooks.filter(embed.data);
      embed.data := f.data;
      thrown := f.thrown;
    }
    if thrown.Some? {
      embed.data := map["html" := MarkupFor(hooks, embed.State(), thrown.value)];
      embed.error := Some(thrown.value);
    }
    c := CalledBack;
  }
}
