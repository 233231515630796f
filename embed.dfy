/**
 * The per-request embed record: its options, the resolved `data`, the error
 * slot, the timing fields and the provider API URL that was used.
 */
module Embeds {
  import opened Wrappers
  import opened Shared

  /** Markup an embed carries in `data.html` before anything resolves it. */
  const StubMarkup: string := "<!-- default embed markup -->"

  /** `embed.options`. The constructor leaves it empty; the consumer fills it in. */
  datatype EmbedOptions = EmbedOptions(embedURL: Option<string>, maxWidth: Option<int>, maxHeight: Option<int>)

  const NoOptions: EmbedOptions := EmbedOptions(None, None, None)

  /** Every field of an Embed, as one value. Timestamps come from an abstract clock. */
  datatype EmbedState = EmbedState(
    error: Option<Error>,
    options: EmbedOptions,
    data: Data,
    startedDate: Option<int>,
    finishedDate: Option<int>,
    elapsedMs: Option<int>,
    oembedAPIURL: Option<string>)

  /** The state an operation leaves an embed in, and how it ended. */
  datatype Step = Step(state: EmbedState, completion: Completion)

  /** The data object of an unresolved embed: `{html: stubMarkup}`. */
  function StubData(): (d: Data)
  {
    map["html" := StubMarkup]
  }

  /** The effect of `markStarted` at clock reading `now`. */
  function Started(s: EmbedState, now: int): EmbedState
  {
    s.(startedDate := Some(now))
  }

  /** The effect of `markFinished` at clock reading `now`; it reads `startedDate`, so that must be set. */
  function Finished(s: EmbedState, now: int): EmbedState
    requires s.startedDate.Some?
  {
    s.(finishedDate := Some(now), elapsedMs := Some(now - s.startedDate.value))
  }

  class Embed {
    var error: Option<Error>
    var options: EmbedOptions
    const stubMarkup: string
    var data: Data
    var startedDate: Option<int>
    var finishedDate: Option<int>
    var elapsedMs: Option<int>
    var oembedAPIURL: Option<string>

    function State(): EmbedState
      reads this
    {
      EmbedState(error, options, data, startedDate, finishedDate, elapsedMs, oembedAPIURL)
    }

    /** A fresh embed: no error, empty options, stub markup, no timing, no API URL, and no URL recorded. */
    constructor ()
      ensures error == None && options == NoOptions && options.embedURL == None
      ensures stubMarkup == StubMarkup && data == map["html" := stubMarkup]
      ensures startedDate == None && finishedDate == None && elapsedMs == None
      ensures oembedAPIURL == None
    {
      error := None;
      options := NoOptions;
      stubMarkup := StubMarkup;
      data := map["html" := StubMarkup];
      startedDate := None;
      finishedDate := None;
      elapsedMs := None;
      oembedAPIURL := None;
    }

    /** Timestamps the start of resolving; no other field changes. */
    method MarkStarted(now: int)
      modifies this
      ensures startedDate == Some(now)
      ensures State() == Started(old(State()), now)
    {
      startedDate := Some(now);
    }

    /**
     * Timestamps the end of resolving and derives `elapsedMs`. The source
     * dereferences `startedDate`, so `markStarted` must have run before.
     */
    method MarkFinished(now: int)
      requires startedDate.Some?
      modifies this
      ensures finishedDate == Some(now) && elapsedMs == Some(now - old(startedDate).value)
      ensures State() == Finished(old(State()), now)
    {
      finishedDate := Some(now);
      elapsedMs := Some(finishedDate.value - startedDate.value);
    }
  }

  /**
   * Starting at `t0` and finishing at `t1` records both readings and an
   * elapsed time of `t1 - t0`, which is not negative when the clock did not
   * run backwards; everything else about the embed is kept.
   */
  lemma StartThenFinish(s: EmbedState, t0: int, t1: int)
    ensures Finished(Started(s, t0), t1).startedDate == Some(t0)
    ensures Finished(Started(s, t0), t1).finishedDate == Some(t1)
    ensures Finished(Started(s, t0), t1).elapsedMs == Some(t1 - t0)
    ensures t0 <= t1 ==> Finished(Started(s, t0), t1).elapsedMs.value >= 0
    ensures Finished(Started(s, t0), t1).(startedDate := s.startedDate, finishedDate := s.finishedDate, elapsedMs := s.elapsedMs) == s
  {
  }
}
