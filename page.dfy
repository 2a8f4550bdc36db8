/** What the crawler gets back from the network and the HTML parser: an
    HTTP outcome, a parsed document reduced to the parts the crawler looks
    at, and parsed JSON values. The parser, the CSS selector engine and the
    HTTP client are library code; the model sees only their results. */
module Page {
  import opened Wrappers
  import opened Text

  /** One element of a parsed document: its tag name, its string-valued
      attributes, the text nodes directly inside it that come before its
      first child element, and whether one of the navigation-menu selectors
      of `_extract_a_tags` (`nav a`, `.menu a`, `.c-header a`, ...) matches
      it. Text that follows a child element is recorded as a further element
      with the tag `#text`, no attributes and `inNav` false, placed where that
      text sits in document order; such an element is never a link, a
      `script` or a `style`. */
  datatype Element = Element(tag: string, attrs: map<string, string>, strings: seq<string>, inNav: bool)

  /** A parsed document, as the sequence of its elements in document order. */
  type Document = seq<Element>

  /** A value produced by `json.loads`. An object keeps its members in order;
      which member wins when a key repeats is up to the parser. */
  datatype Json =
    | JNull
    | JBool(b: bool)
    | JNumber(literal: string)
    | JString(s: string)
    | JArray(items: seq<Json>)
    | JObject(members: seq<(string, Json)>)

  /** The outcome of one `session.get(url, verify=...)` followed by
      `raise_for_status()` and parsing: a parsed page, a TLS certificate
      failure, or any other failure (network error, non-2xx status). */
  datatype Response = Parsed(doc: Document) | SslFailure | OtherFailure

  /** Hosts whose broken certificate chains are tolerated. */
  const SslRetryHosts: seq<string> := ["galiciaseguros.com.ar", "integrityseguros.com.ar"]

  /** `any(domain in url for domain in [...])`: a substring test on the whole URL. */
  predicate SslRetryAllowed(url: string) {
    exists i :: 0 <= i < |SslRetryHosts| && Contains(url, SslRetryHosts[i])
  }

  /** `_get_soup` without its cache: fetch with certificate verification;
      on a certificate failure retry once without verification, but only for
      the allow-listed hosts; every other failure gives `None`. `get(u, v)`
      is the response to a request for `u` with verification `v`. */
  function FetchDocument(url: string, get: (string, bool) -> Response): (r: Option<Document>)
    ensures r.Some? ==> get(url, true).Parsed? || (SslRetryAllowed(url) && get(url, true).SslFailure? && get(url, false).Parsed?)
    ensures get(url, true).Parsed? ==> r == Some(get(url, true).doc)
    ensures !SslRetryAllowed(url) && !get(url, true).Parsed? ==> r == None
    ensures SslRetryAllowed(url) && get(url, true).SslFailure? && get(url, false).Parsed? ==>
      r == Some(get(url, false).doc)
  {
    match get(url, true)
    case Parsed(doc) => Some(doc)
    case SslFailure =>
      if SslRetryAllowed(url) then
        match get(url, false)
        case Parsed(doc) => Some(doc)
        case _ => None
      else None
    case OtherFailure => None
  }

  /** `script.string`: the single text node of an element, if it has exactly one. */
  function SingleString(e: Element): Option<string> {
    if |e.strings| == 1 then Some(e.strings[0]) else None
  }

  /** `s.strip()` */
  function Strip(s: string): string {
    StripRight(StripLeft(s))
  }

  /** The texts that `soup.get_text(separator=' ', strip=True)` joins once the
      `script` and `style` elements are removed: every text node outside those
      elements, stripped, with the empty ones dropped, in document order. */
  function VisibleStrings(doc: Document): seq<string>
    decreases |doc|
  {
    if doc == [] then []
    else
      var e := doc[|doc| - 1];
      VisibleStrings(doc[..|doc| - 1])
      + (if e.tag == "script" || e.tag == "style" then [] else NonBlank(e.strings))
  }

  function NonBlank(strings: seq<string>): seq<string>
    decreases |strings|
  {
    if strings == [] then []
    else
      var s := Strip(strings[|strings| - 1]);
      NonBlank(strings[..|strings| - 1]) + (if s == "" then [] else [s])
  }

  /** The text `get_page_content` returns for a fetched document. */
  function PageText(doc: Document): (r: string)
    ensures r == Join(" ", Words(Join(" ", VisibleStrings(doc))))
    ensures Normalized(r)
    ensures Visible(r) == Visible(Join(" ", VisibleStrings(doc)))
  {
    NormalizeWhitespace(Join(" ", VisibleStrings(doc)))
  }

  /** The texts of a document are those of its parts, in order. */
  lemma {:induction false} VisibleStringsAppend(a: Document, b: Document)
    ensures VisibleStrings(a + b) == VisibleStrings(a) + VisibleStrings(b)
    decreases |b|
  {
    if b == [] {
      assert a + b == a;
    } else {
      var init := b[..|b| - 1];
      assert (a + b)[..|a + b| - 1] == a + init;
      VisibleStringsAppend(a, init);
    }
  }

  /** The content of a `script` or `style` element never reaches the page text,
      wherever the element sits. */
  lemma ScriptAndStyleIgnored(a: Document, e: Element, b: Document)
    requires e.tag == "script" || e.tag == "style"
    ensures PageText(a + [e] + b) == PageText(a + b)
  {
    SkippedElement(a, e, b);
  }

  /** Dropping a `script` or `style` element leaves the texts of a document unchanged. */
  lemma SkippedElement(a: Document, e: Element, b: Document)
    requires e.tag == "script" || e.tag == "style"
    ensures VisibleStrings(a + [e] + b) == VisibleStrings(a + b)
  {
    assert VisibleStrings([e]) == VisibleStrings([]) + [];
    VisibleStringsAppend(a, [e]);
    VisibleStringsAppend(a + [e], b);
    VisibleStringsAppend(a, b);
  }
}
