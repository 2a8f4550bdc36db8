/** The `WebsiteExtractor` object: its seed URL and domain, the links it
    discovers (`all_links`) and the ordered list it keeps after filtering
    (`filtered_links`). Library code enters as parameters: `get` is the HTTP
    client, `netloc` is `urlparse(...).netloc`, `urljoin` is `urljoin` (giving
    `None` where it raises `ValueError`), `findUrls` is the URL regular
    expression's `findall`, `parseJson` is `json.loads`. `raised` names the
    strategies whose library calls raise on the page at hand. */
module Extractor {
  import opened Wrappers
  import opened Text
  import opened Page
  import opened LinkSources
  import opened LinkFilter

  /** The four strategies `extract_links` runs, in its order. */
  datatype Strategy = Anchors | Attributes | JsonData | Scripts

  const Strategies: seq<Strategy> := [Anchors, Attributes, JsonData, Scripts]

  /** What one strategy finds on a document when it does not raise. */
  function StrategyLinks(s: Strategy, doc: Document, findUrls: string -> seq<string>,
                         parseJson: string -> Option<Json>): set<string>
  {
    match s
    case Anchors => AnchorLinks(doc)
    case Attributes => AttributeLinks(doc, findUrls)
    case JsonData => JsonLinks(doc, parseJson)
    case Scripts => ScriptLinks(doc, findUrls)
  }

  /** Runs one strategy: the bound method `extractor(soup)` that `extract_links` calls for each entry of its strategy list. */
  method RunStrategy(s: Strategy, doc: Document, findUrls: string -> seq<string>,
                     parseJson: string -> Option<Json>) returns (found: set<string>)
    ensures found == StrategyLinks(s, doc, findUrls, parseJson)
  {
    match s
    case Anchors => found := ExtractAnchors(doc);
    case Attributes => found := ExtractAttributeUrls(doc, findUrls);
    case JsonData => found := ExtractJsonUrls(doc, parseJson);
    case Scripts => found := ExtractScriptUrls(doc, findUrls);
  }

  /** The union of what the strategies among the first `n` find, skipping those that raise. */
  function CandidatesUpTo(n: nat, doc: Document, raised: set<Strategy>, findUrls: string -> seq<string>,
                          parseJson: string -> Option<Json>): set<string>
    requires n <= |Strategies|
  {
    set k, l | 0 <= k < n && Strategies[k] !in raised && l in StrategyLinks(Strategies[k], doc, findUrls, parseJson) :: l
  }

  /** The raw links `extract_links` collects before resolving them. */
  function Candidates(doc: Document, raised: set<Strategy>, findUrls: string -> seq<string>,
                      parseJson: string -> Option<Json>): set<string>
  {
    CandidatesUpTo(|Strategies|, doc, raised, findUrls, parseJson)
  }

  /** A strategy that does not raise keeps all its links, whatever the others do. */
  lemma StrategyFailureIsolated(s: Strategy, doc: Document, raised: set<Strategy>,
                                findUrls: string -> seq<string>, parseJson: string -> Option<Json>)
    requires s !in raised
    ensures StrategyLinks(s, doc, findUrls, parseJson) <= Candidates(doc, raised, findUrls, parseJson)
  {
    var k := match s case Anchors => 0 case Attributes => 1 case JsonData => 2 case Scripts => 3;
    assert Strategies[k] == s;
  }

  /** A link lost when more strategies raise was found only by the ones that
      newly raised. */
  lemma RaisingLosesOnlyOwnLinks(doc: Document, raised: set<Strategy>, more: set<Strategy>, l: string,
                                 findUrls: string -> seq<string>, parseJson: string -> Option<Json>)
    requires raised <= more
    requires l in Candidates(doc, raised, findUrls, parseJson) && l !in Candidates(doc, more, findUrls, parseJson)
    ensures exists s :: s in more - raised && l in StrategyLinks(s, doc, findUrls, parseJson)
  {
    var k :| 0 <= k < |Strategies| && Strategies[k] !in raised && l in StrategyLinks(Strategies[k], doc, findUrls, parseJson);
    assert Strategies[k] in more;
  }

  /** `urljoin(current_url, link)` for every raw link it accepts. */
  function Resolve(links: set<string>, current: string, urljoin: (string, string) -> Option<string>): set<string> {
    set l | l in links && urljoin(current, l).Some? :: urljoin(current, l).value
  }

  /** No element occurs twice. */
  predicate Distinct(s: seq<string>) {
    forall i, j :: 0 <= i < j < |s| ==> s[i] != s[j]
  }

  /** `list(set(xs))`: the distinct elements of `xs`, in the set's iteration order. */
  method Deduplicate(xs: seq<string>) returns (r: seq<string>)
    ensures Distinct(r)
    ensures forall x :: x in r <==> x in xs
  {
    var pending := set x | x in xs;
    r := [];
    while pending != {}
      invariant Distinct(r)
      invariant forall x :: x in r ==> x !in pending
      invariant forall x :: x in xs <==> x in r || x in pending
      decreases pending
    {
      var x :| x in pending;
      r := r + [x];
      pending := pending - {x};
    }
  }

  class WebsiteExtractor {
    const baseUrl: string
    const domain: string
    var allLinks: seq<string>
    var filteredLinks: seq<string>

    /** `__init__`: the domain is the host part of the seed URL. */
    constructor (baseUrl: string, netloc: string -> string)
      ensures this.baseUrl == baseUrl && domain == netloc(baseUrl)
      ensures allLinks == [] && filteredLinks == []
    {
      this.baseUrl := baseUrl;
      domain := netloc(baseUrl);
      allLinks := [];
      filteredLinks := [];
    }

    /** The URL `_get_soup` fetches: the argument, or the seed when it is `None`. */
    function FetchTarget(url: Option<string>): string {
      if url.Some? then url.value else baseUrl
    }

    /** `url if url else self.base_url`: links resolve against the seed when the
        argument is `None` or empty. */
    function CurrentUrl(url: Option<string>): string {
      if url.Some? && url.value != "" then url.value else baseUrl
    }

    /** `get_page_content`: the page's normalised text, or "" when the fetch fails. */
    function PageContent(url: Option<string>, get: (string, bool) -> Response): (r: string)
      ensures FetchDocument(FetchTarget(url), get).None? ==> r == ""
      ensures FetchDocument(FetchTarget(url), get).Some? ==>
        r == Join(" ", Words(Join(" ", VisibleStrings(FetchDocument(FetchTarget(url), get).value))))
      ensures FetchDocument(FetchTarget(url), get).Some? ==>
        Visible(r) == Visible(Join(" ", VisibleStrings(FetchDocument(FetchTarget(url), get).value)))
      ensures Normalized(r)
    {
      match FetchDocument(FetchTarget(url), get)
      case None => ""
      case Some(doc) => PageText(doc)
    }

    /** `extract_links`: [] and no change when the fetch fails; otherwise the
        resolved links of every strategy that does not raise, without
        duplicates, also stored in `allLinks`. */
    method ExtractLinks(url: Option<string>, get: (string, bool) -> Response, findUrls: string -> seq<string>,
                        parseJson: string -> Option<Json>, urljoin: (string, string) -> Option<string>,
                        raised: set<Strategy>) returns (links: seq<string>)
      modifies this`allLinks
      ensures FetchDocument(FetchTarget(url), get).None? ==> links == [] && allLinks == old(allLinks)
      ensures FetchDocument(FetchTarget(url), get).Some? ==>
        var found := Candidates(FetchDocument(FetchTarget(url), get).value, raised, findUrls, parseJson);
        && allLinks == links && Distinct(links)
        && forall l :: l in links <==> l in Resolve(found, CurrentUrl(url), urljoin)
    {
      var soup := FetchDocument(FetchTarget(url), get);
      if soup.None? {
        return [];
      }
      var doc := soup.value;
      var current := CurrentUrl(url);

      var found: set<string> := {};
      for k := 0 to |Strategies|
        invariant found == CandidatesUpTo(k, doc, raised, findUrls, parseJson)
      {
        var extractor := Strategies[k];
        if extractor !in raised {
          var more := RunStrategy(extractor, doc, findUrls, parseJson);
          found := found + more;
        }
        assert CandidatesUpTo(k + 1, doc, raised, findUrls, parseJson)
            == CandidatesUpTo(k, doc, raised, findUrls, parseJson)
             + (if extractor !in raised then StrategyLinks(extractor, doc, findUrls, parseJson) else {});
      }

      var absolute: seq<string> := [];
      var pending := found;
      while pending != {}
        invariant pending <= found
        invariant forall a :: a in absolute <==> a in Resolve(found - pending, current, urljoin)
        decreases pending
      {
        var link :| link in pending;
        assert Resolve(found - (pending - {link}), current, urljoin)
            == Resolve(found - pending, current, urljoin) + Resolve({link}, current, urljoin);
        var abs := urljoin(current, link);
        if abs.Some? {
          absolute := absolute + [abs.value];
        }
        pending := pending - {link};
      }
      links := Deduplicate(absolute);
      allLinks := links;
    }

    /** `filter_links`: keeps the same-host, non-excluded links of `allLinks`
        and puts the priority ones first; the result is also stored in
        `filteredLinks`. What that list is, is proved in `LinkFilter`. */
    method FilterLinks(netloc: string -> string) returns (r: seq<string>)
      modifies this`filteredLinks
      ensures r == filteredLinks == FilteredLinks(allLinks, domain, netloc)
    {
      var domainLinks: seq<string> := [];
      for i := 0 to |allLinks|
        invariant domainLinks == SameSiteLinks(allLinks[..i], domain, netloc)
      {
        assert allLinks[..i + 1][..i] == allLinks[..i];
        if Contains(netloc(allLinks[i]), domain) {
          domainLinks := domainLinks + [allLinks[i]];
        }
      }
      assert allLinks[..|allLinks|] == allLinks;

      var filtered: seq<string> := [];
      for i := 0 to |domainLinks|
        invariant filtered == NotExcluded(domainLinks[..i])
      {
        assert domainLinks[..i + 1][..i] == domainLinks[..i];
        if !Excluded(domainLinks[i]) {
          filtered := filtered + [domainLinks[i]];
        }
      }
      assert domainLinks[..|domainLinks|] == domainLinks;

      var priority: seq<string> := [];
      var regular: seq<string> := [];
      for i := 0 to |filtered|
        invariant priority == PriorityLinks(filtered[..i])
        invariant regular == RegularLinks(filtered[..i])
      {
        assert filtered[..i + 1][..i] == filtered[..i];
        if IsPriority(filtered[i]) {
          priority := priority + [filtered[i]];
        } else {
          regular := regular + [filtered[i]];
        }
      }
      assert filtered[..|filtered|] == filtered;
      filteredLinks := priority + regular;
      r := filteredLinks;
    }
  }
}
