/** Client-side checks of the specifications, proved from the contracts
    alone: situations from the integration's test suite, plus the size
    limit's boundary, the status classes, and what happens to a displaced
    `options` object.
 */
module Scenarios {
  import opened Js
  import opened Messages
  import opened WildcardIntegration
  import SendData

  function NoCampaign(query: string): Campaign { map[] }

  function UtmCampaign(query: string): Campaign {
    map["source" := "source", "medium" := "medium", "term" := "term", "content" := "content", "name" := "name"]
  }

  function Tiny(e: Envelope): nat { 10 }

  function Huge(e: Envelope): nat { 40000 }

  const Browser := Host("Mozilla/5.0", "", 1000, NoCampaign)
  const Anonymous := Analytics(User(None, Some("anon-id")), "3.0.0", None, ["Wildcard", "other"])

  /** A caller-supplied context object is kept, its library untouched, its
      userAgent overwritten; the anonymous id and sentAt are filled. */
  method ProvidedContextIsKept() {
    var w := new Wildcard(DefaultOptions.(endpoint := "https://wildcard.endpoint.com"), Anonymous);
    var body := new Message(Some("existingId"), None, None, None, map[]);
    var context := new Context(EmptyContext.(library := Some(Library("wildcard-library.js", "1.0.9"))));
    body.context := context;
    var r := w.NormalizeData(body, Browser);
    assert r.context == context;
    assert context.library == Some(Library("wildcard-library.js", "1.0.9"));
    assert context.userAgent == Some("Mozilla/5.0");
    assert body.userId == Some("existingId");
    assert body.anonymousId == Some("anon-id");
    assert body.sentAt == Some(1000);
    assert body.metadata == None;
  }

  /** A message carrying both a context and an options object keeps the
      context; the displaced options object is unlinked but not changed,
      and a handler keeps the caller's context object too. */
  method DisplacedOptionsUnchanged() {
    var w := new Wildcard(DefaultOptions, Anonymous);
    var m := new Message(None, None, None, None, map[]);
    var c := new Context(EmptyContext);
    var o := new Context(EmptyContext);
    m.context, m.options := c, o;
    var _ := w.NormalizeData(m, Browser);
    assert m.context == c && m.options == null;
    assert o.Value() == EmptyContext;

    var page := new Message(None, None, None, None, map[]);
    page.context := c;
    w.On(Page, page, Browser, Tiny);
    assert page.context == c;
  }

  /** Legacy `options` become the context; a missing library gets the default name. */
  method OptionsBecomeContext() {
    var w := new Wildcard(DefaultOptions, Anonymous);
    var body := new Message(None, None, None, None, map[]);
    var opts := new Context(EmptyContext);
    body.options := opts;
    var _ := w.NormalizeData(body, Browser);
    assert body.context == opts && body.options == null;
    assert opts.library == Some(Library("analytics.js", "3.0.0"));
  }

  /** A UTM query fills a missing campaign but never a supplied one. */
  method CampaignFromQuery() {
    var w := new Wildcard(DefaultOptions, Anonymous);
    var host := Browser.(search := "?utm_source=source&utm_medium=medium&utm_term=term&utm_content=content&utm_campaign=name",
                         utm := UtmCampaign);
    var body := new Message(None, None, None, None, map[]);
    var _ := w.NormalizeData(body, host);
    assert body.context.campaign == Some(UtmCampaign(host.search));

    var supplied := map["source" := "overrideSource"];
    var other := new Message(None, None, None, None, map[]);
    var context := new Context(EmptyContext.(campaign := Some(supplied)));
    other.context := context;
    var _ := w.NormalizeData(other, host);
    assert context.campaign == Some(supplied);
  }

  /** Bundled metadata lists the registered integrations and passes the
      configured unbundled list through. */
  method BundledMetadata() {
    var w := new Wildcard(DefaultOptions.(addBundledMetadata := true, unbundledIntegrations := Some(["other2"])), Anonymous);
    var body := new Message(None, None, None, None, map[]);
    var _ := w.NormalizeData(body, Browser);
    assert body.metadata == Some(Metadata(None, Some(["Wildcard", "other"]), Some(["other2"])));
  }

  /** Alias without `from` and without a known user id falls back to the
      anonymous id and is queued under `/alias`. */
  method AliasFallsBackToAnonymousId() {
    var w := new Wildcard(DefaultOptions.(endpoint := "https://api.example.com"), Anonymous);
    var json := new Message(None, None, None, Some("to"), map[]);
    w.On(Alias, json, Browser, Tiny);
    assert json.previousId == Some("anon-id");
    assert json.userId == Some("to");
    assert json.from == None && json.to == None;
    assert w.options.endpoint + PathOf(Alias) == "https://api.example.com/alias";
    assert w.queue == [Item("https://api.example.com/alias", ContentTypeHeaders, json)];
  }

  /** An oversized message is dropped; one exactly at the limit is queued. */
  method SizeGate() {
    var w := new Wildcard(DefaultOptions.(endpoint := "https://api.example.com"), Anonymous);
    var big := new Message(None, None, None, None, map[]);
    var dropped := w.AddToQueue("/i", big, Browser, Huge);
    assert dropped == None && w.queue == [];

    var atLimit := new Message(Some("id"), None, None, None, map[]);
    var item := w.AddToQueue("/i", atLimit, Browser, (e: Envelope) => 32000);
    assert item.Some? && item.value.url == "https://api.example.com/i";
    assert w.queue == [item.value];
  }

  /** 503 and 429 are errors, 404 and 200 are successes; nothing fires before DONE. */
  method StatusOutcomes() {
    assert SendData.Classify(503, "Service Unavailable").Failure?;
    assert SendData.Classify(429, "Too Many Requests").Failure?;
    SendData.SuccessStatuses(404, "Not Found");
    assert SendData.Classify(404, "Not Found").Success?;
    assert SendData.Classify(200, "OK") == SendData.Success(200);
    assert SendData.OnReadyStateChange(3, 200, "OK") == None;
  }
}
