# url-embed: a verified model of the oEmbed client core

url-embed turns page URLs (a YouTube video, a tweet, a Videopress clip) into
embeddable HTML. An `Embed` record carries the options of one request (the
page URL, size limits). It also carries the resolved `data` (whose `html`
property is the markup), an error slot, start and finish timestamps and the
provider API URL that was used. The `EmbedEngine` keeps an ordered registry
of provider instances. No two of them share a name: registering a provider
replaces any entry with its name. For each embed, the engine lets the first
provider whose URL patterns match resolve it. The engine then runs its
`filterData` hook, timestamps the finish and calls back. When no provider
matches, it records an `UnknownProviderError` and falls back to an anchor
to the URL.

The providers:

- The generic `URLEmbedProvider` matches URLs against a pattern list. Its
  `getEmbed` only runs `filterData`, and its `errorMarkup` is an anchor to
  the URL.
- An `OEmbedProvider` builds the provider API URL: `url` and `format`, then
  `maxwidth` and `maxheight` when given, then its own query parameters. It
  makes one HTTP request with a versioned User-Agent and the configured
  timeout. It fills the embed from the JSON reply, after rewriting the
  eight-digit `\U` escapes into UTF-16 surrogate pairs (section 3.8 of the
  Unicode Standard, section 2.1 of RFC 2781), or with error markup on every
  failure path.
- Videopress is an oEmbed provider whose `configure` adds the `for`
  referrer parameter.
- The old MTV provider makes no request. It reads the numeric video id from
  the page URL and writes an iframe.

Layout, one module per source file:

| Module | File | Source |
|---|---|---|
| `Wrappers` | `wrappers.dfy` | `Option`/`Result` |
| `Shared` | `shared.dfy` | errors, data, query values, engine options, the completion of a callback-taking call |
| `Hex` | `hex.dfy` | the hexadecimal digits `parseInt` and `toString(16)` use |
| `Surrogates` | `surrogates.dfy` | the `\U` escape repair |
| `Embeds` | `embed.dfy` | `Embed.js` |
| `URLEmbedProvider` | `url_embed_provider.dfy` | `URLEmbedProvider.js` |
| `OEmbedProvider` | `oembed_provider.dfy` | `OEmbedProvider.js` |
| `Videopress` | `videopress.dfy` | `Videopress.js` |
| `OldMtvVideo` | `old_mtv_video.dfy` | `old_mtv_video.js` |
| `Providers` | `providers.dfy` | the provider instances: one `Provider` class whose `kind` selects the subclass's `getEmbed` and `configure` |
| `Engine` | `embed_engine.dfy` | `EmbedEngine.js` |

The mutable objects are classes with `modifies` frames: `Embed`, `Provider`
and `EmbedEngine`. Every method is proved against a pure step function over
the object's state (`Embeds.EmbedState`, `Providers.ProviderView`). The
properties are lemmas about those functions. JavaScript's `this` on a
provider's own methods becomes explicit parameters. The overridable methods
(`filterData`, `errorMarkup`, `errorMarkup<status>`,
`errorMarkupNoMatchingProvider`) are function-valued hook fields.

The model does not always follow the code:

- Where the code throws out of an asynchronous handler (an uncaught
  exception, so the callback never fires), the model ends in `Crashed`.
- Where the code throws to the caller, the model ends in `Threw`.
- Where code and documentation disagree, the model follows the code. The
  exceptions are the four places listed under Findings. For each, an
  as-written member and a corrected one are both modelled, and the rest of
  the model uses the corrected one.

## Model

| member | source | states |
|---|---|---|
| Embeds.Embed.constructor | lib/classes/Embed.js:7-57 | a fresh embed has no error, empty options, `data` = `{html: stubMarkup}` with the fixed stub comment, and no timing or API URL |
| Embeds.Embed.MarkStarted | lib/classes/Embed.js:62-64 | records the start reading and changes no other field |
| Embeds.Embed.MarkFinished | lib/classes/Embed.js:69-72 | records the finish reading and `elapsedMs` = finish − start; requires a start, which the source dereferences |
| Embeds.StartThenFinish | lib/classes/Embed.js:62-72 | start then finish records both readings and their difference, which is non-negative for a monotone clock; everything else is kept |
| Shared.AnchorRecoversURL | lib/classes/URLEmbedProvider.js:72-80 | the fallback anchor has length 2·\|u\|+15, and the URL can be read back from both the href and the text |
| Shared.AnchorInjective | lib/classes/URLEmbedProvider.js:79 | different URLs give different fallback anchors |
| URLEmbedProvider.DefaultHooks | lib/classes/URLEmbedProvider.js:61-63 | the inherited `filterData` never throws and leaves the data object as it was, and there is no `errorMarkup` override |
| URLEmbedProvider.ConstructedPatterns | lib/classes/URLEmbedProvider.js:16 | a list given to the constructor is the instance's own (an empty array too); otherwise the prototype's list shows through, and with neither the instance has none |
| URLEmbedProvider.IsMatch | lib/classes/URLEmbedProvider.js:24-33 | without a pattern list it throws the TypeError of reading `length`, whatever the URL; otherwise the early-exit loop returns true iff some pattern matches, the last pattern tried is the first that matches, an empty list gives false, and an undefined URL throws a TypeError as soon as a pattern is tried |
| URLEmbedProvider.ErrorMarkupIsAnchor | lib/classes/URLEmbedProvider.js:72-80 | on an embed the markup ignores the error and the message and contains the URL; on a string or undefined argument it throws |
| URLEmbedProvider.GetEmbed | lib/classes/URLEmbedProvider.js:40-55 | the statements (the URL check, `filterData` on the data object, the `catch`) change the embed and complete exactly as `GetEmbedStep` says, which `GetEmbedOutcomes` characterises |
| URLEmbedProvider.GetEmbedOutcomes | lib/classes/URLEmbedProvider.js:40-55 | throws iff the URL is missing or empty, leaving the embed alone; a returning `filterData` leaves `data` as it changed it in place and nothing else changed; a throwing one replaces `data` by `{html: errorMarkup(embed, e)}`, with the embed as `filterData` left it, and records e, nothing else changed |
| URLEmbedProvider.DefaultProviderDeliversStub | lib/classes/URLEmbedProvider.js:40-47 | with the inherited hooks a fresh embed that has a URL comes back with the stub markup and no error |
| Hex.Digit | lib/classes/OEmbedProvider.js:187 | the digit `toString(16)` writes is a lower-case hex digit that `parseInt` reads back as the same value |
| Hex.ToHex | lib/classes/OEmbedProvider.js:187 | `toString(16)` writes lower-case digits with no leading zero |
| Hex.ToHexRoundTrip | lib/classes/OEmbedProvider.js:184-187 | `parseInt(n.toString(16), 16) == n` |
| Hex.ToHexFourDigits | lib/classes/OEmbedProvider.js:187 | 0x1000..0xFFFF is written with exactly four digits |
| Hex.ToHexAtLeastFourDigits | lib/classes/OEmbedProvider.js:187 | n ≥ 0x1000 is written with at least four digits |
| Surrogates.JsRem | lib/classes/OEmbedProvider.js:186 | JavaScript's `%` satisfies \|r\| < b and agrees with Euclidean `%` for a non-negative dividend |
| Surrogates.SurrogatePair | lib/classes/OEmbedProvider.js:184-187 | for a supplementary-plane scalar, H is a high surrogate, L is a low surrogate, and the two recombine to the scalar |
| Surrogates.SurrogatesAtLeast | lib/classes/OEmbedProvider.js:185-186 | for any eight-digit value H ≥ 0xD7C0 and L ≥ 0xD801, so `toString(16)` writes at least four digits for each |
| Surrogates.RocketExample | test/lib/classes/OEmbedProvider.js:201-202 | the rocket emoji's escape `\U0001f680` becomes the surrogate pair `\ud83d\ude80` |
| Surrogates.ReplacementInRange | lib/classes/OEmbedProvider.js:183-188 | an in-range escape becomes `\u` + four digits + `\u` + four digits, and those digits read back as a surrogate pair that recombines to the scalar |
| Surrogates.ReplacementBackslashes | lib/classes/OEmbedProvider.js:187 | every backslash a replacement writes is followed by a lower-case `u` |
| Surrogates.ConvertLeavesNoEscape | lib/classes/OEmbedProvider.js:182-189 | the repaired body contains no `\U` escape at all, including across a replacement's edges |
| Surrogates.NoEscapeUnchanged | lib/classes/OEmbedProvider.js:183 | a body without any `\U` escape is passed to the parser unchanged |
| Surrogates.PlainPrefixCopied | lib/classes/OEmbedProvider.js:183 | the global replace scans left to right: text where no escape starts is copied and the repair continues after it |
| Surrogates.ConvertIdempotent | lib/classes/OEmbedProvider.js:182-189 | repairing twice is repairing once |
| OEmbedProvider.Keys | lib/classes/OEmbedProvider.js:127-137 | the query object's keys, one per entry, in insertion order |
| OEmbedProvider.Lookup | lib/classes/OEmbedProvider.js:135 | `q[k]` is defined iff k is a key |
| OEmbedProvider.PutSpec | lib/classes/OEmbedProvider.js:135 | after `q[k] = v`, k holds v, every other key keeps its value, and the key order is kept, with k appended only if new |
| OEmbedProvider.PutNewKey | lib/classes/OEmbedProvider.js:128-131 | assigning a new key appends it |
| OEmbedProvider.PutKeepsKeysUnique | lib/classes/OEmbedProvider.js:135 | assignment never creates a duplicate key |
| OEmbedProvider.AssignAllKeys | lib/classes/OEmbedProvider.js:133-137 | copying the parameters keeps the existing keys in front, in order, and creates no duplicate |
| OEmbedProvider.AssignAllLookup | lib/classes/OEmbedProvider.js:133-137 | after the copy, a key of the parameters has their value and any other key keeps its old value |
| OEmbedProvider.StandardQueryKeys | lib/classes/OEmbedProvider.js:127-131 | the keys are `url`, `format`, then `maxwidth` and `maxheight` only when truthy, each once; `url` and `format` hold the embed URL and the provider's format |
| OEmbedProvider.StandardQueryByAssignment | lib/classes/OEmbedProvider.js:127-131 | the four conditional assignments build exactly the standard query |
| OEmbedProvider.APIQueryLookup | lib/classes/OEmbedProvider.js:126-140 | the provider's parameters override or extend the standard keys; every key they lack keeps its standard value, and `maxwidth`/`maxheight` are present iff truthy |
| OEmbedProvider.APIQueryKeys | lib/classes/OEmbedProvider.js:126-140 | whatever the parameters, the query starts with `url`, `format` and repeats no key |
| OEmbedProvider.APIQueryWithoutParameters | lib/classes/OEmbedProvider.js:133 | with null or empty provider parameters the query is the standard one |
| OEmbedProvider.BuildAPIURL | lib/classes/OEmbedProvider.js:126-140 | the loop over the parameters computes `APIURL`, which begins with the provider URL and `?` |
| OEmbedProvider.VersionReadOnce | lib/classes/OEmbedProvider.js:150-154 | the manifest version is read only while the instance has none; once set it is kept by later requests |
| OEmbedProvider.BuildRequestOptions | lib/classes/OEmbedProvider.js:149-163 | the User-Agent is the fixed prefix followed by the version after the read-once rule, the timeout is the provider's, and no URL is set yet |
| OEmbedProvider.ParseResponseBodySpec | lib/classes/OEmbedProvider.js:112-118 | only the json format yields a result; a body without escapes reaches the parser unchanged |
| OEmbedProvider.NewUnexpectedStatusError | lib/classes/OEmbedProvider.js:100 | the corrected error carries the response's status code |
| OEmbedProvider.StatusMessageSpec | lib/classes/OEmbedProvider.js:100 | the message begins with `HTTP status` and the decimal code and ends with the requested API URL |
| OEmbedProvider.StatusIsLostAsWritten | lib/classes/errors/UnexpectedStatusError.js:13-21 | as written, the status is 0 for every code, so a 404 and a 500 are indistinguishable; corrected, they differ |
| OEmbedProvider.TransportErrorCrashesAsWritten | lib/classes/OEmbedProvider.js:79-96 | as written, a transport error crashes the handler before the `if (error)` branch and nothing is delivered; corrected, the embed is called back with the error recorded |
| OEmbedProvider.AsWrittenAgreesOnResponses | lib/classes/OEmbedProvider.js:80-103 | on a received response both versions agree, except that the status error's status is 0 as written and the code when corrected |
| OEmbedProvider.AfterReplySpec | lib/classes/OEmbedProvider.js:79-105 | the callback fires unless a 200 reply arrives for a non-json format; nothing is thrown to the caller; the options and timing are kept; the final or requested URL is recorded |
| OEmbedProvider.AfterReplyErrorPaths | lib/classes/OEmbedProvider.js:93-103 | a transport error records that error and sets only `data.html`; another status records the status error, keeps every other data property, and uses `errorMarkup<status>` when the provider defines it |
| OEmbedProvider.AfterReplyDeliversParsedData | lib/classes/OEmbedProvider.js:82-86 | status 200 with a parseable body and a returning `filterData` delivers the parsed object as `filterData` left it (the parsed object itself when it changes nothing); a throwing one puts the error markup into that object and records the error |
| OEmbedProvider.AfterReplyParseError | lib/classes/OEmbedProvider.js:87-91 | a body the parser rejects records the parser's error, keeps the old data and overwrites only `html` |
| OEmbedProvider.HandleReply | lib/classes/OEmbedProvider.js:79-105 | the handler's statements, including `filterData` working in place on the parsed object, change the embed and complete exactly as the corrected `AfterReply` says, which `AfterReplySpec` and its companions characterise |
| OEmbedProvider.GetEmbedOutcomes | lib/classes/OEmbedProvider.js:57-106 | throws iff the URL is missing or empty, and then nothing changes; otherwise the request goes to the API URL with the provider timeout, and the handler crashes only for a 200 reply in a non-json format |
| OEmbedProvider.MakeAPIRequest | lib/classes/OEmbedProvider.js:72-106 | builds the options and the URL, sends the request, handles the reply and updates the instance version by the read-once rule |
| OEmbedProvider.GetEmbed | lib/classes/OEmbedProvider.js:57-65 | the URL check, then the request; the version changes only when a request is made |
| OEmbedProvider.OwnOrInherited | lib/classes/OEmbedProvider.js:36-42 | a truthy constructor argument becomes the instance's own value; otherwise the prototype's shows through |
| OEmbedProvider.ConfigureSpec | lib/classes/OEmbedProvider.js:197-201 | a non-zero `timeoutMs` option replaces the timeout, a missing or zero one keeps it, and configuring is idempotent |
| Videopress.QueryParameters | lib/classes/default_providers/Videopress.js:27-29 | after `configure`, the parameters are the single `for` entry |
| Videopress.ForParameterSpec | lib/classes/default_providers/Videopress.js:28 | `for` is the referrer iff one is given and non-empty, else `www.example.com`; it is never empty |
| Videopress.VideopressQuery | lib/classes/default_providers/Videopress.js:20-36 | the query sent is the standard keys unchanged followed by `for`, which holds the referrer |
| Videopress.VideopressAPIURL | lib/classes/default_providers/Videopress.js:34 | the API URL begins with the Videopress endpoint and `?` |
| OldMtvVideo.LeftmostMatchFrom | lib/classes/default_providers/old_mtv_video.js:18 | a match found lies in range, at or after the start |
| OldMtvVideo.LeftmostMatchFromSpec | lib/classes/default_providers/old_mtv_video.js:18 | the regex search returns the leftmost position where `/videos/misc/` and a digit occur, and none iff there is no such position |
| OldMtvVideo.LeftmostMatch | lib/classes/default_providers/old_mtv_video.js:18 | a match is followed by at least one character |
| OldMtvVideo.DigitRun | lib/classes/default_providers/old_mtv_video.js:18 | the greedy `[0-9]+` is no longer than the input |
| OldMtvVideo.DigitRunSpec | lib/classes/default_providers/old_mtv_video.js:18 | the greedy run is a prefix, all digits, and stops at the first non-digit |
| OldMtvVideo.VideoIdSpec | lib/classes/default_providers/old_mtv_video.js:18-19 | `matches[1]` exists iff the pattern occurs, and then it is a non-empty run of digits |
| OldMtvVideo.VideoIdExample | lib/classes/default_providers/old_mtv_video.js:18 | `/videos/misc/123/x` yields the id `123` |
| OldMtvVideo.IframeNamesId | lib/classes/default_providers/old_mtv_video.js:19 | the id can be read back from the iframe, so different ids give different markup |
| OldMtvVideo.NoIdThrowsAsWritten | lib/classes/default_providers/old_mtv_video.js:22-28 | as written and with the inherited `errorMarkup`, no id (or no URL) makes the `catch` throw a TypeError and leaves the embed unchanged; corrected, it calls back with the lookup error |
| OldMtvVideo.NoIdExample | lib/classes/default_providers/old_mtv_video.js:14-29 | with the inherited `errorMarkup`, the URL `http://www.mtv.com/videos/misc/` throws "Cannot read properties of undefined (reading 'embedURL')" as written and calls back when corrected |
| OldMtvVideo.GetEmbedOutcomes | lib/classes/default_providers/old_mtv_video.js:14-29 | the corrected `getEmbed` always calls back; with an id and a returning `filterData`, `data` is what `filterData` left of the data with the iframe in `html` (exactly that data when it changes nothing) and nothing else changes; when an error is recorded, `data` is just `html`; the options and API URL are kept |
| OldMtvVideo.NoIdOverrideAsWritten | lib/classes/default_providers/old_mtv_video.js:22-28 | as written, with an overriding `errorMarkup` and no id (or no URL), the callback fires with the override's markup for the bare URL (or undefined) and no error; corrected, the override gets the embed and the lookup error |
| OldMtvVideo.AsWrittenCallsBackOnlyOnSuccess | lib/classes/default_providers/old_mtv_video.js:17-28 | with the inherited `errorMarkup`, the as-written version calls back exactly when an id is found and `filterData` returns |
| OldMtvVideo.AsWrittenAgreesOnSuccess | lib/classes/default_providers/old_mtv_video.js:17-21 | whenever the `try` block completes (an id is found and `filterData` returns), the as-written version calls back and agrees with the corrected one |
| OldMtvVideo.GetEmbed | lib/classes/default_providers/old_mtv_video.js:14-29 | the statements, including `filterData` working in place after the iframe is written, compute the corrected `GetEmbedStep` |
| Providers.InitialView | lib/classes/OEmbedProvider.js:29-49 | a new instance has no query parameters and no version; an oEmbed instance has the prototype's 2000 ms timeout |
| Providers.Provider.Generic | lib/classes/URLEmbedProvider.js:11-17 | the generic instance's pattern list is the constructor's argument if given, else its class's prototype list, else undefined; its other fields are its class's |
| Providers.Provider.OEmbed | lib/classes/OEmbedProvider.js:29-49 | truthy `providerURL`/`format` arguments and a given pattern list become own fields, otherwise the prototype values show through (for the patterns, possibly none); the timeout is 2000 ms; no parameters; no version |
| Providers.Provider.VideopressProvider | lib/classes/default_providers/Videopress.js:33-36 | a new Videopress instance has its prototype's name, endpoint, patterns and json format, and no `for` parameter until configured |
| Providers.Provider.OldMtvVideoProvider | lib/classes/default_providers/old_mtv_video.js:32-33 | a new old-MTV instance has its prototype's name and pattern |
| Providers.Provider.Configure | lib/classes/OEmbedProvider.js:197-201 | the instance's `configure` as its class defines it (`ConfigureView`) |
| Providers.ConfigureSpec | lib/classes/default_providers/Videopress.js:20-30 | configuring changes only the timeout and parameters, leaves non-oEmbed providers alone, gives Videopress its `for` parameter, and is idempotent |
| Providers.VideopressConfigureSpec | lib/classes/default_providers/Videopress.js:20-30 | configuring Videopress twice: the second call's `for` parameter replaces the first's, a non-zero second timeout wins and otherwise the first call's stays, nothing else changes, and a second call with the same options changes nothing |
| Providers.Provider.IsMatch | lib/classes/URLEmbedProvider.js:24-33 | true implies some pattern matches the URL; it throws iff the instance has no pattern list, or the URL is undefined and there is a pattern; without a list it throws the TypeError of reading `length` |
| Providers.Provider.GetEmbed | lib/classes/OEmbedProvider.js:57-65 | dispatches to the class's `getEmbed`; the embed ends as `EmbedStep` says and only the version of the instance may change |
| Providers.ViewAfterEmbedSpec | lib/classes/OEmbedProvider.js:150-154 | resolving changes a provider only in its version, never a truthy one, and doing it again changes nothing more |
| Providers.EmbedStepKeeps | lib/classes/OEmbedProvider.js:79-105 | no provider's `getEmbed` touches the options or the timing fields |
| Providers.Instantiate | lib/classes/EmbedEngine.js:97 | `new ProviderClass()` gives a fresh instance in its class's initial state |
| Providers.DefaultProvidersDiffer | lib/classes/default_providers/old_mtv_video.js:32 | the two default providers have different names and implementations, so registering both keeps both |
| Engine.DefaultEngineHooks | lib/classes/EmbedEngine.js:172 | the inherited engine `filterData` changes nothing, and there is no no-match override |
| Engine.RegisteredSpec | lib/classes/EmbedEngine.js:69-84 | after registering, the provider is in the registry and is every entry with its name; entries with other names keep their positions; the names are unchanged or gain the new one at the end |
| Engine.RegisteredKeepsDistinct | lib/classes/EmbedEngine.js:74-83 | registration keeps the names distinct |
| Engine.RegisteredIdempotent | lib/classes/EmbedEngine.js:69-84 | registering the same provider twice equals registering it once |
| Engine.ViewsOfRegistered | lib/classes/EmbedEngine.js:74-83 | the providers' fields after registering are the same-named fields replaced in place, or the new fields appended |
| Engine.RegisterViewSpec | lib/classes/EmbedEngine.js:74-83 | registering adds the provider, never shrinks the registry, keeps every other-named entry, and adds nothing else |
| Engine.DefaultRegistrationSpec | lib/classes/EmbedEngine.js:94-101 | registering the default classes never shrinks the registry; the last class ends up registered and configured; every entry was there before or is a configured default |
| Engine.DefaultProvidersRegistered | lib/classes/EmbedEngine.js:94-101 | from an empty registry, Videopress and old MTV are both registered, configured, and are the only entries |
| Engine.FindFrom | lib/classes/EmbedEngine.js:113-129 | a provider found lies in the part of the registry searched |
| Engine.FindFromSpec | lib/classes/EmbedEngine.js:113-129 | the search picks the first provider whose `isMatch` is true, all earlier ones saying false; it finds none iff all say false; it throws only on reaching a provider without a pattern list, or one with patterns while the URL is undefined |
| Engine.ProviderDispatchSpec | lib/classes/EmbedEngine.js:120 | `provider.getEmbed` is the providers' own `getEmbed` by class, and every one keeps the options and timestamps |
| Engine.ThrowStep | lib/classes/EmbedEngine.js:109-117 | when an `isMatch` throws, `getEmbed` throws that error with only the start timestamped, and no provider changes |
| Engine.NoMatchStep | lib/classes/EmbedEngine.js:131-138 | with no match the embed gets the no-match treatment and no provider changes |
| Engine.MatchStep | lib/classes/EmbedEngine.js:117-127 | the first matching provider resolves the embed |
| Engine.MatchViews | lib/classes/EmbedEngine.js:117-127 | only the matching provider may change |
| Engine.EngineStepSpec | lib/classes/EmbedEngine.js:108-139 | the start is always timestamped and the options kept; a throwing search throws with nothing else done; no match calls back with an UnknownProviderError naming the URL and only the no-match markup; a match ends as the provider's `getEmbed` ends; a callback is finish-timestamped with elapsed time |
| Engine.NoMatchGivesAnchor | lib/classes/EmbedEngine.js:163-165 | with the inherited hooks, an unhandled URL's data is exactly an anchor to that URL |
| Engine.EmptyRegistryMatchesNothing | lib/classes/EmbedEngine.js:131-138 | an empty registry calls back every embed with an UnknownProviderError |
| Engine.UnsetEmbedURLThrowsAsWritten | lib/classes/EmbedEngine.js:117 | as written, an embed without an `embedURL` property makes `getEmbed` throw the TypeError of `isMatch(undefined)` as soon as the first registered provider has a pattern; when the options hold a URL and every provider has a pattern list, the search over that URL never throws |
| Engine.AsWrittenAgreesWhenURLCopied | lib/classes/EmbedEngine.js:108-139 | when the consumer sets `embed.embedURL` to the options' URL, the as-written engine is the one modelled |
| Engine.MultiStep | lib/classes/EmbedEngine.js:146-157 | each embed is resolved from the state it has when its turn comes, so one named twice is resolved again from where the first time left it; the batch records at most one step per remaining position and a final state for every position, and keeps the registry's length |
| Engine.MultiStepSpec | lib/classes/EmbedEngine.js:146-157 | a batch that calls back has one step per position; one that stops has steps up to the failing position; the k-th step resolves position from + k, started and (unless it is the failing one) finished at its own clock readings; a position whose embed no step reached keeps its state, and any other ends in the state the last step on that embed left |
| Engine.SpreadSpec | lib/classes/EmbedEngine.js:149-153 | updating one embed of the list changes exactly the positions that hold that object, keeps the states coherent and keeps every position's options |
| Engine.DistinctBatchFinal | lib/classes/EmbedEngine.js:146-157 | for a list of distinct embeds, the final states are the untouched prefix, the steps' results in order, then the positions not reached |
| Engine.RepeatedEmbed | lib/classes/EmbedEngine.js:149-153 | a list naming one embed twice resolves it a second time from the first step's result, and both positions end in the second step's state |
| Engine.StatesCoherent | lib/classes/EmbedEngine.js:146-157 | the states read from a list of embeds agree wherever the list names the same embed |
| Engine.EmbedEngine.constructor | lib/classes/EmbedEngine.js:26-60 | an empty registry, with the options, default classes and hooks given; the invariant and the dispatch hold |
| Engine.EmbedEngine.ConfigureProvider | lib/classes/EmbedEngine.js:86-88 | configures the provider with the engine options |
| Engine.EmbedEngine.RegisterProvider | lib/classes/EmbedEngine.js:69-84 | configures the provider, after which the registry is `Registered(old registry, provider)`; distinct names are kept |
| Engine.EmbedEngine.RegisterDefaultProviders | lib/classes/EmbedEngine.js:94-101 | the registry's fields become `DefaultRegistration` of the old ones and the default classes; distinct names are kept |
| Engine.EmbedEngine.RegisterDefaultProvider | lib/classes/EmbedEngine.js:96-99 | one loop turn registers the class's configured initial fields |
| Engine.EmbedEngine.RegisterNew | lib/classes/EmbedEngine.js:69-84 | registering a new instance, seen through the providers' fields, is `RegisterView` |
| Engine.EmbedEngine.NewConfigured | lib/classes/EmbedEngine.js:96-98 | a fresh instance of the class, configured with the engine options |
| Engine.EmbedEngine.GetEmbed | lib/classes/EmbedEngine.js:108-139 | the embed's new state and the completion are `EngineStep`, and the providers' fields are `ViewsAfter` |
| Engine.EmbedEngine.UseProvider | lib/classes/EmbedEngine.js:117-127 | the matching provider resolves the embed, the callback filters and timestamps it, and only that provider may change |
| Engine.EmbedEngine.Deliver | lib/classes/EmbedEngine.js:120-123 | the engine callback: `filterData`, then the finish timestamp |
| Engine.EmbedEngine.FindProvider | lib/classes/EmbedEngine.js:113-129 | the loop computes `FindFrom` over the registry |
| Engine.EmbedEngine.ReportNoMatch | lib/classes/EmbedEngine.js:131-138 | records the UnknownProviderError and the no-match markup, timestamps the finish and calls back |
| Engine.EmbedEngine.Start | lib/classes/EmbedEngine.js:109 | `markStarted` and nothing else |
| Engine.EmbedEngine.GetMultipleEmbeds | lib/classes/EmbedEngine.js:146-157 | for any list, including one that names an embed twice, the embeds' final states, the providers and the completion are those of `MultiStep`; on success the results are the embeds in order |
| Engine.EmbedEngine.GetEmbedsFrom | lib/classes/EmbedEngine.js:149-153 | the recursive batch from position i, from given provider views and embed states, leaves the embeds, the providers and the completion as `MultiStep` does from i |
| Engine.EmbedEngine.ResolveNext | lib/classes/EmbedEngine.js:150-152 | one position of the batch is resolved by `getEmbed` with its clock readings; every position holding the same embed sees its new state, the other embeds keep theirs, and the batch from i is this step followed, on a callback, by the batch from i + 1 |

## Left out

- HTTP transport, `JSON.parse`, `querystring.stringify`, the regex search in `isMatch`, the package manifest read, and the clock: these are parameters (`Http`, `Matcher`, the `started`/`finished` readings). The model states what the core does with their results, not how they work.
- `data` holds only string-valued properties. This is enough for `data.html` and for the parsed oEmbed fields that the core writes or keeps.
- OEmbedProvider.AfterReplySpec: the JSON parser is modelled as yielding an object or throwing. A body that parses to `null` makes `filterData` throw and the `catch` throw again, so the handler crashes; one that parses to a number or a string is delivered as `data`. Neither is represented, so the callback and crash cases this member states cover object results only.
- Response formats other than json (XML): `parseResponseBody` returns undefined and `filterData(undefined)` runs. The inherited `filterData` then throws reading `html`, and the `catch`'s write to `data.html` throws again. The model ends every such request in `Crashed`, which is what happens with the inherited `filterData`, and leaves `data` as it was rather than undefined.
- OEmbedProvider.AfterReplySpec: its "crashes exactly on a 200 reply in a non-json format" holds for a `filterData` that throws on undefined, as the inherited one does. An override that returns on undefined would make the source call back with `data` undefined, which the model cannot represent.
- OEmbedProvider.GetEmbedOutcomes: the same restrictions as `OEmbedProvider.AfterReplySpec` apply. Its "crashes only for a 200 reply in a non-json format" holds for a `filterData` that throws on undefined and for markup hooks that return. An `errorMarkup<status>` override that reads `this` throws when lines 99-101 of `OEmbedProvider.js` call it unbound, and so does any throwing `errorMarkup` at lines 88 and 94; the handler then crashes, which the model does not represent.
- OEmbedProvider.Keys: the query object's key order is modelled as insertion order. JavaScript enumerates integer-like keys (array indices such as `"0"`) first, in ascending order. The model assumes no query parameter name is an array index, which holds for `url`, `format`, `maxwidth`, `maxheight` and `for`.
- OEmbedProvider.PutSpec: the same insertion-order assumption as `OEmbedProvider.Keys`.
- OEmbedProvider.PutNewKey: the same insertion-order assumption as `OEmbedProvider.Keys`.
- OEmbedProvider.AssignAllKeys: the same insertion-order assumption as `OEmbedProvider.Keys`.
- OEmbedProvider.APIQueryKeys: the same insertion-order assumption as `OEmbedProvider.Keys`; with an integer-like parameter name, that key would come before `url` in the serialised query.
- URLEmbedProvider.GetEmbedOutcomes: the `errorMarkup` and `errorMarkup<status>` overrides are modelled as functions that return markup. An override that throws inside a `catch` would escape to the caller (or, in the request callback, out of the handler); that is not modelled.
- OEmbedProvider.AfterReplySpec: the status markup is called unbound at lines 99-101 of `OEmbedProvider.js`, so an `errorMarkup<status>` (or `errorMarkup`) override that reads `this` throws in the handler and the callback never fires. The model treats every markup hook as returning, so its "never crashes except on non-json" does not cover such an override.
- OldMtvVideo.GetEmbedOutcomes: the same returning-markup assumption as `URLEmbedProvider.GetEmbedOutcomes`.
- `getMultipleEmbeds` uses `async.map`, which may interleave requests. The model resolves the embeds one after another in list order, and when an embed does not call back the batch stops there. Concurrency is not modelled.
- Engine.EmbedEngine.GetMultipleEmbeds: when the batch does not call back, the source never calls the final callback; the model returns an empty result list then.
- Engine: the engine's `filterData` and the consumer's callbacks are modelled as not throwing. A throw there would re-enter the providers' `catch` blocks, which would call the callback a second time.
- URLEmbedProvider.IsMatch: its ghost `probes` count only describes how far the loop went. The rest of the model uses only its result.
- `EmbedEngine` holds its dispatch of `provider.getEmbed` as a ghost constant, proved to be the providers' own `getEmbed`. The engine's pure step functions take the dispatch as a parameter.
- `registerDefaultProviders` configures each default provider twice, once itself and once in `registerProvider`. This is modelled as written, and `Providers.ConfigureSpec` shows it equals configuring once.
- The default-provider directory scan (`lib/utils.js`, `index.js`) and `providerSuperClasses` are left out: the engine is given its default classes as a list. `lib/utils.js` is not part of this model.
- The other default providers (YouTube, Twitter, Vimeo and the rest) are only prototype constants on `OEmbedProvider`. They are covered by `Providers.OEmbedClass` and not modelled one by one.
- `EmbedValidationError.js` is not part of this model. It appears only as the error value thrown for a missing URL.
- The demo and documentation scripts (`try_many_embeds.js`, `push_docs.js`) are left out.

## Findings

| source | as written | input that shows it | evidently intended | confidence | as-written member | corrected member |
|---|---|---|---|---|---|---|
| lib/classes/OEmbedProvider.js:80 | the request callback reads `response.request.uri.href` before it checks `error`, so a transport error throws a TypeError in the handler and the embed is never delivered | a request that times out: `error` set, `response` undefined | record the requested API URL and take the `if (error)` branch at lines 93-96 | not executed | OEmbedProvider.TransportErrorCrashesAsWritten | OEmbedProvider.AfterReplySpec |
| lib/classes/errors/UnexpectedStatusError.js:20 | the constructor sets `status = 0`, and line 100 of `OEmbedProvider.js` passes only the message, so the HTTP status is never recorded | any non-200 response, e.g. a 404 and a 500: both errors have `status` 0 | `status` holds the response's status code | not executed | OEmbedProvider.StatusIsLostAsWritten | OEmbedProvider.NewUnexpectedStatusError |
| lib/classes/default_providers/old_mtv_video.js:24 | the `catch` calls `this.errorMarkup(embedURL)` with the URL string, so for a provider that keeps the inherited `errorMarkup` reading `embed.options` throws again and the callback never fires; an override is handed the URL and no error | `http://www.mtv.com/videos/misc/` (no numeric id), or an embed without a URL | call `errorMarkup(embed, error)` as the generic provider does, record the error and call back | not executed | OldMtvVideo.NoIdExample | OldMtvVideo.GetEmbedOutcomes |
| lib/classes/EmbedEngine.js:117 | the engine matches on `embed.embedURL`, a property `Embed` never declares, while every provider reads `embed.options.embedURL`; with only the options set, `isMatch(undefined)` throws a TypeError | an embed with `options.embedURL` = `https://videopress.com/v/x` and no `embedURL` property, with a first registered provider that has a pattern (both default providers do) | match, report and mark up using `embed.options.embedURL` | not executed | Engine.UnsetEmbedURLThrowsAsWritten | Engine.EngineStepSpec |
