/** The event records the integration receives and rewrites.

    A message is the plain object an analytics.js facade hands over
    (`page.json()`, `track.json()`, ...). The integration rewrites it in
    place, so it is a class; its `context` (or legacy `options`) is another
    object whose identity matters: a caller-supplied context must stay the
    very same object. `Value()` gives the serialisable content of a message
    at one moment, which is what the specification functions talk about.
 */
module Messages {
  import opened Js

  /** `context.library`: which client library produced the event. */
  datatype Library = Library(name: string, version: string)

  /** `context.campaign`: the UTM parameters, keyed by `source`, `medium`,
      `term`, `content`, `name`. */
  type Campaign = map<string, string>

  /** `_metadata`: diagnostics attached to an event. A list that is missing
      (or was set to `undefined`) is `None`. */
  datatype Metadata = Metadata(
    failedInitializations: Option<seq<string>>,
    bundled: Option<seq<string>>,
    unbundled: Option<seq<string>>)

  const EmptyMetadata := Metadata(None, None, None)

  /** The content of a context object. `rest` holds every other property a
      caller put there (serialised), which the integration never touches. */
  datatype ContextValue = ContextValue(
    userAgent: JsString,
    library: Option<Library>,
    campaign: Option<Campaign>,
    rest: map<string, string>)

  const EmptyContext := ContextValue(None, None, None, map[])

  /** The content of a message object. `rest` holds the action-specific
      properties (`event`, `properties`, `traits`, `name`, `category`,
      `groupId`, `timestamp`, `messageId`, ...), serialised; they pass
      through untouched. */
  datatype Envelope = Envelope(
    context: Option<ContextValue>,
    options: Option<ContextValue>,
    userId: JsString,
    anonymousId: JsString,
    sentAt: Option<int>,
    metadata: Option<Metadata>,
    previousId: JsString,
    from: JsString,
    to: JsString,
    rest: map<string, string>)

  /** A context object, updated in place by normalisation. */
  class Context {
    var userAgent: JsString
    var library: Option<Library>
    var campaign: Option<Campaign>
    var rest: map<string, string>

    function Value(): ContextValue
      reads this
    {
      ContextValue(userAgent, library, campaign, rest)
    }

    /** A context object holding the given content. */
    constructor (v: ContextValue)
      ensures Value() == v
    {
      userAgent, library, campaign, rest := v.userAgent, v.library, v.campaign, v.rest;
    }
  }

  /** A message object. A missing `context` or `options` is `null`. */
  class Message {
    var context: Context?
    var options: Context?
    var userId: JsString
    var anonymousId: JsString
    var sentAt: Option<int>
    var metadata: Option<Metadata>
    var previousId: JsString
    var from: JsString
    var to: JsString
    var rest: map<string, string>

    function Value(): Envelope
      reads this, context, options
    {
      Envelope(
        if context == null then None else Some(context.Value()),
        if options == null then None else Some(options.Value()),
        userId, anonymousId, sentAt, metadata, previousId, from, to, rest)
    }

    /** A message object without context or options, holding the given top-level fields. */
    constructor (userId: JsString, previousId: JsString, from: JsString, to: JsString, rest: map<string, string>)
      ensures context == null && options == null
      ensures Value() == Envelope(None, None, userId, None, None, None, previousId, from, to, rest)
    {
      this.context, this.options := null, null;
      this.userId, this.anonymousId, this.sentAt, this.metadata := userId, None, None, None;
      this.previousId, this.from, this.to, this.rest := previousId, from, to, rest;
    }
  }
}
