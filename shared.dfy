/**
 * Values that every part of the embed library passes around: the errors it
 * throws or records, the `data` object of an embed, query-string values, the
 * engine options handed to every provider's `configure`, and the way a call
 * that takes a callback ends.
 */
module Shared {
  import opened Wrappers

  /** The error values the library throws or stores in `embed.error`. */
  datatype Error =
    | PlainError(message: string)                       // `new Error(message)`
    | EmbedValidationError(message: string)
    | UnknownProviderError(message: string)
    | UnexpectedStatusError(message: string, status: int)
    | TransportError(cause: string)                     // reported by the HTTP transport
    | ParseError(cause: string)                         // thrown by the JSON parser
    | HookError(cause: string)                          // thrown by an overriding hook
    | TypeError(message: string)                        // a property read on undefined

  /**
   * The `data` object of an embed: property name to value. Only string-valued
   * properties are modelled; `data.html` is the entry under "html".
   */
  type Data = map<string, string>

  /** A value placed in the query string: a string, a number or undefined. */
  datatype QValue = Text(s: string) | Number(n: int) | Undefined

  /** An ordered string-keyed JavaScript object, as a sequence of (key, value). */
  type Query = seq<(string, QValue)>

  /** The flat options object the engine hands to every provider's `configure`. */
  datatype EngineOptions = EngineOptions(timeoutMs: Option<int>, referrer: Option<string>)

  /** `url.match(pattern)` for a pattern source string: succeeds iff a regex search finds a match. */
  type Matcher = (string, string) -> bool

  /**
   * How a call that takes a callback ends: the callback was invoked, an
   * exception was thrown to the caller, or an exception was thrown inside an
   * asynchronous handler where nothing catches it (the callback never fires).
   */
  datatype Completion = CalledBack | Threw(thrown: Error) | Crashed(uncaught: Error)

  /** JavaScript truthiness of an optional string: present and non-empty. */
  predicate Truthy(s: Option<string>)
  {
    s.Some? && s.value != ""
  }

  /** JavaScript truthiness of an optional number: present and non-zero. */
  predicate TruthyNumber(n: Option<int>)
  {
    n.Some? && n.value != 0
  }

  /** String concatenation with an optional string: undefined prints as "undefined". */
  function Show(s: Option<string>): string
  {
    match s
    case Some(v) => v
    case None => "undefined"
  }

  /** An anchor tag whose href and text are both `u`: the fallback markup for a failed embed. */
  function Anchor(u: string): (markup: string)
  {
    "<a href=\"" + u + "\">" + u + "</a>"
  }

  /** The URL can be read back from the anchor: it is the text between the fixed prefix and `">`. */
  lemma AnchorRecoversURL(u: string)
    ensures |Anchor(u)| == 2 * |u| + 15
    ensures Anchor(u)[9..9 + |u|] == u
    ensures Anchor(u)[11 + |u|..11 + 2 * |u|] == u
  {
    var m := Anchor(u);
    assert m == "<a href=\"" + u + "\">" + u + "</a>";
    assert m[9..9 + |u|] == u;
    assert m[11 + |u|..11 + 2 * |u|] == u;
  }

  /** Two URLs give the same anchor only when they are equal. */
  lemma AnchorInjective(u: string, v: string)
    requires Anchor(u) == Anchor(v)
    ensures u == v
  {
    AnchorRecoversURL(u);
    AnchorRecoversURL(v);
  }

  /** Decimal digits of a number, as `'' + n` prints it (a minus sign for negatives). */
  function DecimalString(n: int): string
  {
    if n < 0 then "-" + NatToDecimal(-n) else NatToDecimal(n)
  }

  function NatToDecimal(n: nat): string
  {
    if n < 10 then ["0123456789"[n]] else NatToDecimal(n / 10) + ["0123456789"[n % 10]]
  }
}
