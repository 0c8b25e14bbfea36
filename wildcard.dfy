/** The Wildcard integration: it shapes each analytics.js action into a
    normalised event and submits it, with its URL and headers, to a retry
    queue that ships it to a configured collection endpoint.

    The message rewriting is specified on values (`Normalize`, `AliasFields`)
    and the class `Wildcard` performs it in place on `Message` objects; each
    method's postcondition ties the new content of the message to the
    specification function of its old content.
 */
module WildcardIntegration {
  import opened Js
  import opened Messages

  /** Default largest serialised length of an event that is queued. */
  const MaxSize: int := 32000

  /** The integration's options. `name` and `endpoint` default to `''`,
      `maxPayloadSize` to `MaxSize`; `addBundledMetadata` is unset (false)
      and `unbundledIntegrations` undefined unless the host sets them. */
  datatype Options = Options(
    name: string,
    endpoint: string,
    maxPayloadSize: int,
    addBundledMetadata: bool,
    unbundledIntegrations: Option<seq<string>>)

  const DefaultOptions := Options("", "", MaxSize, false, None)

  /** Settings handed to the retry queue. They are recorded here only: the
      queue's own behaviour is not part of this model. */
  datatype QueueOptions = QueueOptions(
    maxRetryDelay: nat, minRetryDelay: nat, backoffFactor: nat, maxAttempts: nat, maxItems: nat)

  const RetryQueueOptions := QueueOptions(360000, 1000, 2, 10, 100)

  /** What `analytics.user()` reports: `id()` may be missing, `anonymousId()` is the session's id. */
  datatype User = User(id: JsString, anonymousId: JsString)

  /** The host analytics.js instance, as far as the integration reads it:
      the user, `VERSION`, `failedInitializations` (possibly undefined) and
      the names of the registered integrations (`keys(Integrations)`, in key order). */
  datatype Analytics = Analytics(
    user: User,
    version: string,
    failedInitializations: Option<seq<string>>,
    integrations: seq<string>)

  /** The browser environment at the time of the call: `navigator.userAgent`,
      `location.search`, the clock, and the UTM parser applied to a query string. */
  datatype Host = Host(userAgent: string, search: string, now: int, utm: string -> Campaign)

  /** The request headers every queued item carries, in property order. */
  const ContentTypeHeaders: seq<(string, JsString)> := [("Content-Type", Some("text/plain"))]

  /** A queued request: the full URL, its headers and the (normalised) message object. */
  datatype Item = Item(url: string, headers: seq<(string, JsString)>, msg: Message)

  /** `options.name || 'analytics'`: the source name used for the library
      name (and as the retry queue's storage key). */
  function SourceName(name: string): (r: string)
    ensures r != ""
    ensures name != "" ==> r == name
    ensures name == "" ==> r == "analytics"
  {
    if name != "" then name else "analytics"
  }

  /** The library record filled in when the caller supplied none. */
  function DefaultLibrary(options: Options, analytics: Analytics): (lib: Library)
    ensures lib.name == SourceName(options.name) + ".js"
    ensures lib.version == analytics.version
    ensures options.name == "" ==> lib.name == "analytics.js"
  {
    Library(SourceName(options.name) + ".js", analytics.version)
  }

  /** `message.context || message.options || {}`: the context object a message ends up with. */
  function BaseContext(e: Envelope): ContextValue {
    e.context.GetOr(e.options.GetOr(EmptyContext))
  }

  /** The context after normalisation, starting from the chosen context
      `base`: `userAgent` is always overwritten, `library` and `campaign`
      are filled only when missing, and nothing else changes. */
  function FillContext(base: ContextValue, options: Options, analytics: Analytics, host: Host): (c: ContextValue)
    ensures c.userAgent == Some(host.userAgent)
    ensures base.library.Some? ==> c.library == base.library
    ensures base.library.None? ==> c.library == Some(DefaultLibrary(options, analytics))
    ensures host.search != "" && base.campaign.None? ==> c.campaign == Some(host.utm(host.search))
    ensures host.search == "" || base.campaign.Some? ==> c.campaign == base.campaign
    ensures c.rest == base.rest
  {
    base.(
      userAgent := Some(host.userAgent),
      library := if base.library.None? then Some(DefaultLibrary(options, analytics)) else base.library,
      campaign := if host.search != "" && base.campaign.None? then Some(host.utm(host.search)) else base.campaign)
  }

  /** `_metadata` after normalisation: a non-empty list of failed
      initialisations replaces it with `{failedInitializations}`; with
      `addBundledMetadata` it then gets `bundled` and `unbundled`, keeping
      whatever else it held; otherwise it is left alone. */
  function NormalizeMetadata(metadata: Option<Metadata>, options: Options, analytics: Analytics): (r: Option<Metadata>)
    ensures var failed := analytics.failedInitializations.GetOr([]);
      |failed| > 0 && !options.addBundledMetadata ==> r == Some(Metadata(Some(failed), None, None))
    ensures var failed := analytics.failedInitializations.GetOr([]);
      |failed| > 0 && options.addBundledMetadata ==>
        r == Some(Metadata(Some(failed), Some(analytics.integrations), options.unbundledIntegrations))
    ensures var failed := analytics.failedInitializations.GetOr([]);
      |failed| == 0 && options.addBundledMetadata ==>
        r == Some(Metadata(metadata.GetOr(EmptyMetadata).failedInitializations,
                           Some(analytics.integrations), options.unbundledIntegrations))
    ensures var failed := analytics.failedInitializations.GetOr([]);
      |failed| == 0 && !options.addBundledMetadata ==> r == metadata
  {
    var failed := analytics.failedInitializations.GetOr([]);
    var replaced := if |failed| > 0 then Some(Metadata(Some(failed), None, None)) else metadata;
    if options.addBundledMetadata
    then Some(replaced.GetOr(EmptyMetadata).(bundled := Some(analytics.integrations),
                                             unbundled := options.unbundledIntegrations))
    else replaced
  }

  /** The content of a message after `normalizeData`. */
  function Normalize(e: Envelope, options: Options, analytics: Analytics, host: Host): (r: Envelope)
    // the chosen context, filled in, becomes `context`; `options` is gone
    ensures r.context == Some(FillContext(BaseContext(e), options, analytics, host)) && r.options.None?
    ensures e.context.Some? ==> r.context.value.rest == e.context.value.rest
    ensures e.context.None? && e.options.Some? ==> r.context.value.rest == e.options.value.rest
    ensures e.context.None? && e.options.None? ==> r.context.value.rest == map[]
    // a truthy userId is kept; anonymousId and sentAt are always set
    ensures Truthy(e.userId) ==> r.userId == e.userId
    ensures !Truthy(e.userId) ==> r.userId == analytics.user.id
    ensures r.anonymousId == analytics.user.anonymousId
    ensures r.sentAt == Some(host.now)
    ensures r.metadata == NormalizeMetadata(e.metadata, options, analytics)
    // everything else passes through
    ensures r.previousId == e.previousId && r.from == e.from && r.to == e.to && r.rest == e.rest
  {
    e.(context := Some(FillContext(BaseContext(e), options, analytics, host)),
       options := None,
       userId := Or(e.userId, analytics.user.id),
       anonymousId := analytics.user.anonymousId,
       sentAt := Some(host.now),
       metadata := NormalizeMetadata(e.metadata, options, analytics))
  }

  /** Normalising an already normalised message in the same environment
      changes nothing. */
  lemma NormalizeIdempotent(e: Envelope, options: Options, analytics: Analytics, host: Host)
    ensures var n := Normalize(e, options, analytics, host);
      Normalize(n, options, analytics, host) == n
  {
  }

  /** The content of an alias message after `onalias` has rewritten it. */
  function AliasFields(e: Envelope, user: User): (r: Envelope)
    ensures r.previousId == FirstTruthy([e.previousId, e.from, user.id, user.anonymousId])
    ensures r.userId == FirstTruthy([e.userId, e.to])
    ensures r.from.None? && r.to.None?
    ensures r.(previousId := e.previousId, userId := e.userId, from := e.from, to := e.to) == e
  {
    OrChain([e.previousId, e.from, user.id, user.anonymousId]);
    OrChain([e.userId, e.to]);
    e.(previousId := Or(Or(Or(e.previousId, e.from), user.id), user.anonymousId),
       userId := Or(e.userId, e.to),
       from := None,
       to := None)
  }

  /** The kinds of action the host invokes the integration with. */
  datatype Action = Page | Identify | Group | Track | Alias

  /** The host's name for an action (`message.action()`); the handler is `'on' + name`. */
  function ActionName(a: Action): string {
    match a
    case Page => "page"
    case Identify => "identify"
    case Group => "group"
    case Track => "track"
    case Alias => "alias"
  }

  /** The endpoint path each handler submits to. */
  function PathOf(a: Action): (p: string)
    ensures p == "/" + ActionName(a)
  {
    match a
    case Page => "/page"
    case Identify => "/identify"
    case Group => "/group"
    case Track => "/track"
    case Alias => "/alias"
  }

  /** Distinct actions are submitted to distinct paths. */
  lemma PathOfInjective(a: Action, b: Action)
    ensures PathOf(a) == PathOf(b) <==> a == b
  {
  }

  /** The integration object: its options, the host it is attached to, and
      the items it has handed to the retry queue, oldest first. */
  class Wildcard {
    var options: Options
    var analytics: Analytics
    var queue: seq<Item>

    constructor (options: Options, analytics: Analytics)
      ensures this.options == options && this.analytics == analytics
      ensures queue == []
    {
      this.options, this.analytics := options, analytics;
      queue := [];
    }

    /** `message.context = message.context || message.options || {}` followed
        by `delete message.options`. */
    static method SelectContext(message: Message) returns (context: Context)
      modifies message
      ensures message.context == context && message.options == null
      ensures old(message.context) != null ==> context == old(message.context)
      ensures old(message.context) == null && old(message.options) != null ==> context == old(message.options)
      ensures old(message.context) == null && old(message.options) == null ==> fresh(context)
      ensures message.Value() == old(message.Value()).(context := Some(BaseContext(old(message.Value()))), options := None)
    {
      if message.context != null {
        context := message.context;
      } else if message.options != null {
        context := message.options;
      } else {
        context := new Context(EmptyContext);
      }
      message.context := context;
      message.options := null;
    }

    /** Lines 63-75 of `normalizeData`: set `userAgent`, and `library` and
        `campaign` where the context has none. */
    method FillIn(context: Context, host: Host)
      modifies context
      ensures context.Value() == FillContext(old(context.Value()), options, analytics, host)
    {
      context.userAgent := Some(host.userAgent);

      if context.library.None? {
        context.library := Some(DefaultLibrary(options, analytics));
      }

      if host.search != "" && context.campaign.None? {
        context.campaign := Some(host.utm(host.search));
      }
    }

    /** `normalizeData`: rewrites `message` in place and returns it. */
    method NormalizeData(message: Message, host: Host) returns (r: Message)
      modifies message, if message.context != null then message.context else message.options
      ensures r == message
      ensures message.Value() == Normalize(old(message.Value()), options, analytics, host)
      ensures message.context != null && message.options == null
      ensures old(message.context) != null ==> message.context == old(message.context)
      ensures old(message.context) == null && old(message.options) != null ==> message.context == old(message.options)
      ensures old(message.context) == null && old(message.options) == null ==> fresh(message.context)
    {
      ghost var e := message.Value();
      var context := SelectContext(message);
      FillIn(context, host);

      message.userId := Or(message.userId, analytics.user.id);
      message.anonymousId := analytics.user.anonymousId;
      message.sentAt := Some(host.now);

      var failedInitializations := analytics.failedInitializations.GetOr([]);
      if |failedInitializations| > 0 {
        message.metadata := Some(Metadata(Some(failedInitializations), None, None));
      }

      if options.addBundledMetadata {
        var metadata := message.metadata.GetOr(EmptyMetadata);
        message.metadata := Some(metadata.(bundled := Some(analytics.integrations),
                                           unbundled := options.unbundledIntegrations));
      }
      assert message.metadata == NormalizeMetadata(e.metadata, options, analytics);
      r := message;
    }

    /** `addToQueue`: normalises `message`, then queues it under `endpoint + path`
        unless its serialised length (`size`) exceeds `maxPayloadSize`. */
    method AddToQueue(path: string, message: Message, host: Host, size: Envelope -> nat) returns (item: Option<Item>)
      modifies this`queue, message, if message.context != null then message.context else message.options
      ensures message.Value() == Normalize(old(message.Value()), options, analytics, host)
      ensures message.context != null && message.options == null
      ensures old(message.context) != null ==> message.context == old(message.context)
      ensures old(message.context) == null && old(message.options) != null ==> message.context == old(message.options)
      ensures old(message.context) == null && old(message.options) == null ==> fresh(message.context)
      ensures size(message.Value()) > options.maxPayloadSize ==> item == None && queue == old(queue)
      ensures size(message.Value()) <= options.maxPayloadSize ==>
        item == Some(Item(options.endpoint + path, ContentTypeHeaders, message)) && queue == old(queue) + [item.value]
    {
      var url := options.endpoint + path;
      var headers := ContentTypeHeaders;
      var normalized := NormalizeData(message, host);

      if size(normalized.Value()) > options.maxPayloadSize {
        return None;
      }

      var queued := Item(url, headers, normalized);
      queue := queue + [queued];
      item := Some(queued);
    }

    /** `onalias`: fills `previousId` and `userId` from the fallbacks, drops
        `from` and `to`, and submits the message to `/alias`. */
    method OnAlias(json: Message, host: Host, size: Envelope -> nat)
      modifies this`queue, json, if json.context != null then json.context else json.options
      ensures json.Value() == Normalize(AliasFields(old(json.Value()), analytics.user), options, analytics, host)
      ensures json.context != null && json.options == null
      ensures old(json.context) != null ==> json.context == old(json.context)
      ensures old(json.context) == null && old(json.options) != null ==> json.context == old(json.options)
      ensures old(json.context) == null && old(json.options) == null ==> fresh(json.context)
      ensures size(json.Value()) > options.maxPayloadSize ==> queue == old(queue)
      ensures size(json.Value()) <= options.maxPayloadSize ==>
        queue == old(queue) + [Item(options.endpoint + "/alias", ContentTypeHeaders, json)]
    {
      var user := analytics.user;
      json.previousId := Or(Or(Or(json.previousId, json.from), user.id), user.anonymousId);
      json.userId := Or(json.userId, json.to);
      json.from := None;
      json.to := None;
      var _ := AddToQueue("/alias", json, host, size);
    }

    /** The `on<action>` handlers: page, identify, group and track submit the
        message unchanged to their path; alias goes through `OnAlias`. */
    method On(action: Action, json: Message, host: Host, size: Envelope -> nat)
      modifies this`queue, json, if json.context != null then json.context else json.options
      ensures json.context != null && json.options == null
      ensures old(json.context) != null ==> json.context == old(json.context)
      ensures old(json.context) == null && old(json.options) != null ==> json.context == old(json.options)
      ensures old(json.context) == null && old(json.options) == null ==> fresh(json.context)
      ensures var shaped := if action == Alias then AliasFields(old(json.Value()), analytics.user) else old(json.Value());
        json.Value() == Normalize(shaped, options, analytics, host)
      ensures size(json.Value()) > options.maxPayloadSize ==> queue == old(queue)
      ensures size(json.Value()) <= options.maxPayloadSize ==>
        queue == old(queue) + [Item(options.endpoint + PathOf(action), ContentTypeHeaders, json)]
    {
      match action
      case Page => var _ := AddToQueue("/page", json, host, size);
      case Identify => var _ := AddToQueue("/identify", json, host, size);
      case Group => var _ := AddToQueue("/group", json, host, size);
      case Track => var _ := AddToQueue("/track", json, host, size);
      case Alias => OnAlias(json, host, size);
    }
  }
}
