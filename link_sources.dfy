/** The four link-discovery strategies of `WebsiteExtractor`: anchors,
    URL-bearing attributes, JSON-valued data attributes and inline scripts.
    Each has a specification function (the set it finds) and a method with
    the loops of its `_extract_*` method that is proved to compute it. The URL regular
    expression is library code and enters as `findUrls`; `json.loads` enters
    as `parseJson`, which gives `None` where the parser raises. */
module LinkSources {
  import opened Wrappers
  import opened Text
  import opened Page

  /** The href prefixes `_extract_a_tags` rejects. */
  const RejectedPrefixes: seq<string> := ["javascript:", "#", "mailto:", "tel:"]

  /** `href.startswith(('javascript:', '#', 'mailto:', 'tel:'))` */
  predicate Rejected(href: string) {
    exists i :: 0 <= i < |RejectedPrefixes| && StartsWith(href, RejectedPrefixes[i])
  }

  /** An `a` element that carries an `href` attribute. */
  predicate IsAnchor(e: Element) {
    e.tag == "a" && "href" in e.attrs
  }

  /** First loop of `_extract_a_tags`: non-empty, non-rejected hrefs of all anchors. */
  function AnchorHrefs(doc: Document): set<string> {
    set e | e in doc && IsAnchor(e) && e.attrs["href"] != "" && !Rejected(e.attrs["href"]) :: e.attrs["href"]
  }

  /** Second loop: non-rejected hrefs of anchors inside navigation menus. This
      loop does not test for the empty href. */
  function NavHrefs(doc: Document): set<string> {
    set e | e in doc && e.inNav && IsAnchor(e) && !Rejected(e.attrs["href"]) :: e.attrs["href"]
  }

  /** What `_extract_a_tags` returns. */
  function AnchorLinks(doc: Document): (r: set<string>)
    ensures forall h :: h in r ==> !Rejected(h)
    ensures forall h :: h in r ==> exists e :: e in doc && IsAnchor(e) && e.attrs["href"] == h
  {
    AnchorHrefs(doc) + NavHrefs(doc)
  }

  /** The empty href is found exactly when a navigation anchor carries it. */
  lemma EmptyHrefOnlyFromNav(doc: Document)
    ensures "" in AnchorLinks(doc) <==> exists e :: e in doc && e.inNav && IsAnchor(e) && e.attrs["href"] == ""
  {
  }

  /** `_extract_a_tags`: two loops that grow one set. */
  method ExtractAnchors(doc: Document) returns (links: set<string>)
    ensures links == AnchorLinks(doc)
  {
    links := {};
    for i := 0 to |doc|
      invariant links == AnchorHrefs(doc[..i])
    {
      var e := doc[i];
      assert doc[..i + 1] == doc[..i] + [e];
      if IsAnchor(e) {
        var href := e.attrs["href"];
        if href != "" && !Rejected(href) {
          links := links + {href};
        }
      }
    }
    assert doc[..|doc|] == doc;
    var first := links;
    for i := 0 to |doc|
      invariant links == first + NavHrefs(doc[..i])
    {
      var e := doc[i];
      assert doc[..i + 1] == doc[..i] + [e];
      if e.inNav && IsAnchor(e) && !Rejected(e.attrs["href"]) {
        links := links + {e.attrs["href"]};
      }
    }
  }

  /** `'/' in value or 'http' in value` */
  predicate MayHoldUrl(value: string) {
    Contains(value, "/") || Contains(value, "http")
  }

  /** The URLs `findUrls` finds in the attribute values of one element that may hold one. */
  function ElementAttributeUrls(e: Element, findUrls: string -> seq<string>): set<string> {
    set a, u | a in e.attrs && MayHoldUrl(e.attrs[a]) && u in findUrls(e.attrs[a]) :: u
  }

  /** What `_extract_data_attributes` returns: the URL-shaped substrings of every
      attribute value of every element that contains '/' or 'http'. */
  function AttributeLinks(doc: Document, findUrls: string -> seq<string>): set<string> {
    set e, u | e in doc && u in ElementAttributeUrls(e, findUrls) :: u
  }

  /** An element none of whose attribute values contains '/' or "http" adds
      nothing, whatever `findUrls` would find in them. */
  lemma AttributesWithoutUrlHintIgnored(doc: Document, e: Element, findUrls: string -> seq<string>)
    requires forall a :: a in e.attrs ==> !MayHoldUrl(e.attrs[a])
    ensures AttributeLinks(doc + [e], findUrls) == AttributeLinks(doc, findUrls)
  {
  }

  /** `_extract_data_attributes`: for each element, for each attribute. */
  method ExtractAttributeUrls(doc: Document, findUrls: string -> seq<string>) returns (links: set<string>)
    ensures links == AttributeLinks(doc, findUrls)
  {
    links := {};
    for i := 0 to |doc|
      invariant links == AttributeLinks(doc[..i], findUrls)
    {
      var e := doc[i];
      assert doc[..i + 1] == doc[..i] + [e];
      var before := links;
      var pending := e.attrs.Keys;
      while pending != {}
        invariant pending <= e.attrs.Keys
        invariant links == before + (set a, u | a in e.attrs.Keys - pending && MayHoldUrl(e.attrs[a]) && u in findUrls(e.attrs[a]) :: u)
        decreases pending
      {
        var a :| a in pending;
        var value := e.attrs[a];
        if MayHoldUrl(value) {
          links := links + (set u | u in findUrls(value));
        }
        pending := pending - {a};
      }
      assert links == before + ElementAttributeUrls(e, findUrls);
      assert AttributeLinks(doc[..i + 1], findUrls) == AttributeLinks(doc[..i], findUrls) + ElementAttributeUrls(e, findUrls);
    }
    assert doc[..|doc|] == doc;
  }

  /** The keys whose string values `_extract_urls_from_obj` collects. */
  const UrlKeys: seq<string> := ["href", "url", "link", "src"]

  /** A string worth collecting: non-empty and not a fragment. */
  predicate UrlValue(s: string) {
    s != "" && !StartsWith(s, "#")
  }

  /** What one key/value pair of a JSON object contributes: its value when the
      key is a URL key and the value a collectable string, otherwise whatever
      lies inside the value when it is an object or an array. */
  function MemberUrls(key: string, value: Json): (r: set<string>)
    ensures forall u :: u in r ==> UrlValue(u)
    decreases value, 1
  {
    if key in UrlKeys && value.JString? && UrlValue(value.s) then {value.s}
    else if value.JObject? || value.JArray? then UrlsFromObj(value)
    else {}
  }

  /** `_extract_urls_from_obj`: walks objects and arrays at any depth. */
  function UrlsFromObj(obj: Json): (r: set<string>)
    ensures forall u :: u in r ==> UrlValue(u)
    ensures !(obj.JObject? || obj.JArray?) ==> r == {}
    decreases obj, 0
  {
    match obj
    case JObject(members) =>
      set i, u | 0 <= i < |members| && u in MemberUrls(members[i].0, members[i].1) :: u
    case JArray(items) =>
      set i, u | 0 <= i < |items| && u in UrlsFromObj(items[i]) :: u
    case _ => {}
  }

  /** Every JSON value reachable from `obj` through objects and arrays, `obj` included. */
  function Nodes(obj: Json): set<Json>
    decreases obj
  {
    {obj} +
    match obj
    case JObject(members) => set i, o | 0 <= i < |members| && o in Nodes(members[i].1) :: o
    case JArray(items) => set i, o | 0 <= i < |items| && o in Nodes(items[i]) :: o
    case _ => {}
  }

  /** `o` is an object with a URL key whose value is the collectable string `u`. */
  predicate HoldsUrl(o: Json, u: string) {
    o.JObject? && UrlValue(u)
    && exists i :: 0 <= i < |o.members| && o.members[i].0 in UrlKeys && o.members[i].1 == JString(u)
  }

  /** Reference definition: the walk collects exactly the collectable strings
      stored under a URL key in some object reachable from the root, at any
      depth, including inside a value that is itself stored under a URL key. */
  lemma UrlsFromObjReference(obj: Json, u: string)
    ensures u in UrlsFromObj(obj) <==> exists o :: o in Nodes(obj) && HoldsUrl(o, u)
  {
    if u in UrlsFromObj(obj) {
      UrlsFromObjSound(obj, u);
    }
    if exists o :: o in Nodes(obj) && HoldsUrl(o, u) {
      var o :| o in Nodes(obj) && HoldsUrl(o, u);
      UrlsFromObjComplete(obj, o, u);
    }
  }

  /** Every collected string sits under a URL key of some reachable object. */
  lemma {:induction false} UrlsFromObjSound(obj: Json, u: string)
    requires u in UrlsFromObj(obj)
    ensures exists o :: o in Nodes(obj) && HoldsUrl(o, u)
    decreases obj
  {
    match obj
    case JObject(members) =>
      var i :| 0 <= i < |members| && u in MemberUrls(members[i].0, members[i].1);
      var (k, v) := members[i];
      if k in UrlKeys && v.JString? && UrlValue(v.s) {
        assert HoldsUrl(obj, u);
      } else {
        UrlsFromObjSound(v, u);
        var o :| o in Nodes(v) && HoldsUrl(o, u);
        assert o in Nodes(obj);
      }
    case JArray(items) =>
      var i :| 0 <= i < |items| && u in UrlsFromObj(items[i]);
      UrlsFromObjSound(items[i], u);
      var o :| o in Nodes(items[i]) && HoldsUrl(o, u);
      assert o in Nodes(obj);
  }

  /** Every string under a URL key of a reachable object is collected. */
  lemma {:induction false} UrlsFromObjComplete(obj: Json, o: Json, u: string)
    requires o in Nodes(obj) && HoldsUrl(o, u)
    ensures u in UrlsFromObj(obj)
    decreases obj
  {
    match obj
    case JObject(members) =>
      if o == obj {
        var i :| 0 <= i < |members| && members[i].0 in UrlKeys && members[i].1 == JString(u);
        assert u in MemberUrls(members[i].0, members[i].1);
      } else {
        var i :| 0 <= i < |members| && o in Nodes(members[i].1);
        var v := members[i].1;
        UrlsFromObjComplete(v, o, u);
        assert u in MemberUrls(members[i].0, v);
      }
    case JArray(items) =>
      var i :| 0 <= i < |items| && o in Nodes(items[i]);
      UrlsFromObjComplete(items[i], o, u);
    case _ =>
      assert false;
  }

  /** The attributes `_extract_json_structures` parses as JSON. */
  const JsonAttributes: seq<string> := ["data-props", "data-json", "data-config", "data-settings"]

  /** The URLs found in one element's JSON attribute `a`; nothing when the
      attribute is missing or does not parse. */
  function JsonAttributeUrls(e: Element, a: string, parseJson: string -> Option<Json>): set<string> {
    if a in e.attrs && parseJson(e.attrs[a]).Some? then UrlsFromObj(parseJson(e.attrs[a]).value) else {}
  }

  /** The URLs found under one JSON attribute name across the document. */
  function JsonAttributeLinks(doc: Document, a: string, parseJson: string -> Option<Json>): set<string> {
    set e, u | e in doc && u in JsonAttributeUrls(e, a, parseJson) :: u
  }

  /** One more element adds its own URLs under `a`. */
  lemma JsonAttributeLinksStep(doc: Document, e: Element, a: string, parseJson: string -> Option<Json>)
    ensures JsonAttributeLinks(doc + [e], a, parseJson) == JsonAttributeLinks(doc, a, parseJson) + JsonAttributeUrls(e, a, parseJson)
  {
  }

  /** The URLs found under the first `n` JSON attribute names. */
  function JsonLinksUpTo(doc: Document, n: nat, parseJson: string -> Option<Json>): set<string>
    requires n <= |JsonAttributes|
  {
    set k, u | 0 <= k < n && u in JsonAttributeLinks(doc, JsonAttributes[k], parseJson) :: u
  }

  /** What `_extract_json_structures` returns. */
  function JsonLinks(doc: Document, parseJson: string -> Option<Json>): set<string> {
    JsonLinksUpTo(doc, |JsonAttributes|, parseJson)
  }

  /** `_extract_json_structures`: for each attribute name, for each element that has it. */
  method ExtractJsonUrls(doc: Document, parseJson: string -> Option<Json>) returns (links: set<string>)
    ensures links == JsonLinks(doc, parseJson)
  {
    links := {};
    for k := 0 to |JsonAttributes|
      invariant links == JsonLinksUpTo(doc, k, parseJson)
    {
      var a := JsonAttributes[k];
      var before := links;
      for i := 0 to |doc|
        invariant links == before + JsonAttributeLinks(doc[..i], a, parseJson)
      {
        var e := doc[i];
        assert doc[..i + 1] == doc[..i] + [e];
        JsonAttributeLinksStep(doc[..i], e, a, parseJson);
        if a in e.attrs {
          match parseJson(e.attrs[a])
          case Some(data) =>
            links := links + UrlsFromObj(data);
          case None =>
        }
      }
      assert doc[..|doc|] == doc;
      assert JsonLinksUpTo(doc, k + 1, parseJson) == JsonLinksUpTo(doc, k, parseJson) + JsonAttributeLinks(doc, a, parseJson);
    }
  }

  /** An element whose JSON attributes all fail to parse adds nothing. */
  lemma MalformedJsonContributesNothing(doc: Document, e: Element, parseJson: string -> Option<Json>)
    requires forall a :: a in e.attrs ==> parseJson(e.attrs[a]).None?
    ensures JsonLinks(doc + [e], parseJson) == JsonLinks(doc, parseJson)
  {
    forall a | a in JsonAttributes
      ensures JsonAttributeLinks(doc + [e], a, parseJson) == JsonAttributeLinks(doc, a, parseJson)
    {
      assert JsonAttributeUrls(e, a, parseJson) == {};
      JsonAttributeLinksStep(doc, e, a, parseJson);
    }
  }

  /** A non-empty string whose first character is not '#' is collectable. */
  lemma UrlValueByFirstChar(s: string)
    requires s != [] && s[0] != '#'
    ensures UrlValue(s)
  {
  }

  /** A JSON blob in a `data-props` attribute surfaces a link that no anchor
      references: `{"props": {"href": "/contacto"}}` yields "/contacto". */
  lemma ContactoFromDataProps(doc: Document, e: Element, parseJson: string -> Option<Json>)
    requires e in doc && "data-props" in e.attrs
    requires parseJson(e.attrs["data-props"]) == Some(JObject([("props", JObject([("href", JString("/contacto"))]))]))
    ensures "/contacto" in JsonLinks(doc, parseJson)
  {
    var u := "/contacto";
    var inner := JObject([("href", JString(u))]);
    var outer := JObject([("props", inner)]);
    UrlValueByFirstChar(u);
    assert u in MemberUrls(inner.members[0].0, inner.members[0].1);
    assert u in UrlsFromObj(inner);
    assert u in MemberUrls(outer.members[0].0, outer.members[0].1);
    assert u in UrlsFromObj(outer);
    assert u in JsonAttributeUrls(e, JsonAttributes[0], parseJson);
    assert u in JsonAttributeLinks(doc, JsonAttributes[0], parseJson);
  }

  /** Unlike the anchor scan, the JSON walk does not reject `mailto:`,
      `javascript:` or `tel:` values: only the empty string and fragments. */
  lemma JsonWalkKeepsMailto()
    ensures "mailto:info@example.com" in UrlsFromObj(JObject([("href", JString("mailto:info@example.com"))]))
  {
    var u := "mailto:info@example.com";
    var obj := JObject([("href", JString(u))]);
    UrlValueByFirstChar(u);
    assert u in MemberUrls(obj.members[0].0, obj.members[0].1);
  }

  /** What `_extract_from_scripts` returns: the URL-shaped substrings of the
      single, non-empty text of every `script` element. */
  function ScriptLinks(doc: Document, findUrls: string -> seq<string>): set<string> {
    set e, u | e in doc && e.tag == "script" && SingleString(e).Some? && SingleString(e).value != ""
               && u in findUrls(SingleString(e).value) :: u
  }

  /** Only `script` elements with exactly one, non-empty text node are
      scanned: any other element adds nothing. */
  lemma ScriptLinksNeedSingleText(doc: Document, e: Element, findUrls: string -> seq<string>)
    requires e.tag != "script" || |e.strings| != 1 || e.strings[0] == ""
    ensures ScriptLinks(doc + [e], findUrls) == ScriptLinks(doc, findUrls)
  {
  }

  /** `_extract_from_scripts` */
  method ExtractScriptUrls(doc: Document, findUrls: string -> seq<string>) returns (links: set<string>)
    ensures links == ScriptLinks(doc, findUrls)
  {
    links := {};
    for i := 0 to |doc|
      invariant links == ScriptLinks(doc[..i], findUrls)
    {
      var e := doc[i];
      assert doc[..i + 1] == doc[..i] + [e];
      if e.tag == "script" {
        match SingleString(e)
        case Some(text) =>
          if text != "" {
            links := links + (set u | u in findUrls(text));
          }
        case None =>
      }
    }
    assert doc[..|doc|] == doc;
  }
}
