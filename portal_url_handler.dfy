/** ClipboardPortal/ClipboardPortalApp.swift: the `clipboardportal://paste`
    URL scheme, `?type=<text|url>&content=<text>`, which sends the content. */
module PortalUrlHandler {

  import opened Wrappers
  import opened Sequences
  import opened PortalClipboardManager

  /** A `URLQueryItem`: a name and an optional value (section 3.4 of RFC 3986
      leaves the form of the query to the scheme). */
  datatype QueryItem = QueryItem(name: string, value: Option<string>)

  /** `URLComponents(url:resolvingAgainstBaseURL:)` and its `queryItems`:
      no components, components without query items, or the items in order. */
  datatype Query = NoComponents | NoQueryItems | Items(items: seq<QueryItem>)

  datatype IncomingUrl = IncomingUrl(scheme: Option<string>, host: Option<string>, query: Query)

  /** The predicate `{ $0.name == name }`. */
  function NameIs(name: string): (p: QueryItem -> bool)
    ensures forall item :: p(item) <==> item.name == name
  {
    (item: QueryItem) => item.name == name
  }

  /** `first(where: { $0.name == name })?.value`: the value of the first item
      with that name (nil when that item has no value, even if a later one has). */
  function FirstValue(items: seq<QueryItem>, name: string): (r: Option<string>)
    ensures (forall j :: 0 <= j < |items| ==> items[j].name != name) ==> r.None?
    ensures forall i :: (0 <= i < |items| && items[i].name == name &&
                         (forall j :: 0 <= j < i ==> items[j].name != name)) ==> r == items[i].value
  {
    match FirstIndexWhere(items, NameIs(name))
    case None => None
    case Some(i) => items[i].value
  }

  /** `ClipboardContentTypes(rawValue: type) ?? .text`. */
  function ContentTypeOf(raw: string): (t: ContentType)
    ensures t == Url <==> raw == "url"
  {
    if raw == "url" then Url else Text
  }

  /** `handleIncomingURL`: the content it sends, if any. */
  function HandleIncomingUrl(url: IncomingUrl): (r: Option<ClipboardContent>)
    ensures r.Some? <==> url.scheme == Some("clipboardportal") && url.host == Some("paste") &&
                         url.query.Items? && FirstValue(url.query.items, "content").Some?
    ensures r.Some? ==>
              r.value.id == None &&
              r.value.content == FirstValue(url.query.items, "content").value &&
              r.value.kind == ContentTypeOf(FirstValue(url.query.items, "type").GetOr("text"))
  {
    if url.scheme != Some("clipboardportal") || url.host != Some("paste") then None
    else match url.query
      case NoComponents => None
      case NoQueryItems => None
      case Items(items) =>
        var kind := FirstValue(items, "type").GetOr("text");
        match FirstValue(items, "content")
        case None => None
        case Some(content) => Some(ClipboardContent(None, ContentTypeOf(kind), content))
  }

  /** Only `type=url` as the first type item gives a URL: a missing or valueless
      type item, and any other type string, give text. */
  lemma TypeDefaultsToText(items: seq<QueryItem>)
    ensures FirstValue(items, "type").None? ==> ContentTypeOf(FirstValue(items, "type").GetOr("text")) == Text
    ensures ContentTypeOf(FirstValue(items, "type").GetOr("text")) == Url <==> FirstValue(items, "type") == Some("url")
  {
  }

  /** Items after the first one with a name are never consulted. */
  lemma FirstValueIgnoresLaterItems(items: seq<QueryItem>, later: seq<QueryItem>, name: string)
    requires exists i :: 0 <= i < |items| && items[i].name == name
    ensures FirstValue(items + later, name) == FirstValue(items, name)
  {
    FirstIndexWhereAppend(items, later, NameIs(name));
    var i := FirstIndexWhere(items, NameIs(name)).value;
    assert (items + later)[i] == items[i];
  }

  /** `application(_:open:)`: the contents sent, one per URL that yields
      one, in the order of `urls`. */
  function Open(urls: seq<IncomingUrl>): (sent: seq<ClipboardContent>)
    ensures |sent| <= |urls|
    decreases |urls|
  {
    if urls == [] then []
    else
      (match HandleIncomingUrl(urls[0]) case None => [] case Some(c) => [c]) + Open(urls[1..])
  }

  /** URLs are handled independently and in order: opening two lists one
      after the other sends what opening them together sends. */
  lemma {:induction false} OpenAppend(a: seq<IncomingUrl>, b: seq<IncomingUrl>)
    ensures Open(a + b) == Open(a) + Open(b)
    decreases |a|
  {
    if a != [] {
      assert (a + b)[1..] == a[1..] + b;
      OpenAppend(a[1..], b);
    } else {
      assert a + b == b;
    }
  }
}
