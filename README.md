# Insurance-site crawler core, modelled in Dafny

The crawler starts from an insurer's home page. Each `WebsiteExtractor` does
three jobs:

- it fetches pages for one seed URL;
- it discovers candidate links with four strategies: anchors,
  URL-bearing attributes, JSON-valued data attributes, and inline scripts;
- it filters the links down to an ordered list. The list keeps the links on
  the seed's host and drops the excluded ones, with the priority links first.

`get_all_pages_content` then fetches the text of at most `max_pages` of those
links. It uses one extractor per host and works in chunks of at most ten URLs.
A URL that fails contributes nothing. The non-empty page texts are joined
with a blank line.

The project models that core:

| file | module | what it holds |
|---|---|---|
| `config.dfy` | `Config` | the content separator, the exclusion patterns and the priority patterns, as literals |
| `text.dfy` | `Text` | Python's `startswith`, substring `in`, ASCII `lower()`, `strip()`, the `\s+` collapse and `join`, with their properties |
| `seqs.dfy` | `Seqs` | order-preserving selection (`[x for x in s if p(x)]`) and its laws |
| `page.dfy` | `Page` | parsed documents, JSON values, HTTP outcomes, the fetch with its TLS-retry allow-list, and the visible text of a page |
| `link_sources.dfy` | `LinkSources` | the four link-discovery strategies: a specification function each, plus a method with the loops of `_extract_*` proved to compute it |
| `link_filter.dfy` | `LinkFilter` | what `filter_links` computes, and the properties of that list |
| `website_extractor.dfy` | `Extractor` | the `WebsiteExtractor` class: its `domain`, `all_links` and `filtered_links` fields, and the methods that update them |
| `content_processor.dfy` | `ContentProcessor` | `get_all_pages_content`: truncation, grouping by host, extractor creation, chunking, the per-URL failure mapping, and the join |
| `wrappers.dfy` | `Wrappers` | `Option` |

Library code enters as function-typed parameters:

- `netloc` stands for `urlparse(...).netloc`.
- `urljoin` stands for `urljoin`. It gives `None` where the library raises `ValueError`.
- `findUrls` stands for the URL regular expression's `findall`.
- `parseJson` stands for `json.loads`. It gives `None` where the parser raises.
- `get(u, verify)` is the HTTP response followed by parsing.

Exceptions raised inside library code enter as parameters too:

- `raised` is the set of strategies that raise on the page at hand.
- `raises(u)` says that processing URL `u` raises.

The thread pool's completion order is a nondeterministic choice. A chunk's
texts are therefore promised only as a permutation (equal multisets) of that
chunk's non-empty texts. Chunks contribute in chunk order.

### Two behaviours of the link scans

- **Empty href from navigation menus.** The first loop of `_extract_a_tags`
  skips an anchor whose `href` is empty (app/website_extractor.py:129). The
  navigation-selector loop (app/website_extractor.py:142) tests only the
  prefixes, so an empty `href` on a navigation anchor is collected.
  `LinkSources.EmptyHrefOnlyFromNav` states exactly when this happens.
- **`mailto:`, `javascript:` and `tel:` values from JSON.** The anchor scan
  rejects these prefixes. The JSON walk (app/website_extractor.py:189)
  rejects only the empty string and `#`-fragments, so such a value stored
  under `href`, `url`, `link` or `src` is collected.
  `LinkSources.JsonWalkKeepsMailto` exhibits a `mailto:` value that gets
  through.

## Model

| member | source | states |
|---|---|---|
| Text.ContainsIffOccurs | app/website_extractor.py:201 | the substring test used for hosts and patterns holds exactly when some position of the string starts a copy of the pattern |
| Text.Lower | app/website_extractor.py:206 | lower-casing keeps the length and maps every ASCII capital to its small letter, leaving every other character alone |
| Text.NormalizeWhitespace | app/website_extractor.py:83 | the result is the words of the input (its maximal runs of non-whitespace) joined by single spaces; hence it has no whitespace at either end, only single spaces inside, and exactly the non-whitespace characters of the input in order |
| Text.WordsAreWords | app/website_extractor.py:83 | every word is non-empty and holds no whitespace |
| Text.NormalizeIdempotent | app/website_extractor.py:83 | normalising already normalised text changes nothing |
| Text.JoinLength | app/content_processor.py:62 | a join of n parts is as long as the parts plus n-1 separators and starts with the first part |
| Page.FetchDocument | app/website_extractor.py:41-67 | a page is returned only when the verified request succeeds, or when it fails on the certificate for an allow-listed host and the unverified retry succeeds; in those two cases the page returned is the one that request parsed; every other failure gives no page |
| Page.PageText | app/website_extractor.py:75-83 | the page text is the words of the stripped, non-empty text nodes outside `script` and `style`, in document order, joined by single spaces; it is normalised and has exactly their non-whitespace characters |
| Page.VisibleStringsAppend | app/website_extractor.py:75-77 | the text nodes of two consecutive parts of a document are those of the first part followed by those of the second |
| Page.ScriptAndStyleIgnored | app/website_extractor.py:75-77 | inserting a `script` or `style` element anywhere in a document leaves its text unchanged |
| LinkSources.AnchorLinks | app/website_extractor.py:122-147 | no href found by the anchor scan starts with `javascript:`, `#`, `mailto:` or `tel:`, and each is the href of an anchor of the document |
| LinkSources.EmptyHrefOnlyFromNav | app/website_extractor.py:127-143 | the empty href is found exactly when a navigation-menu anchor carries it |
| LinkSources.ExtractAnchors | app/website_extractor.py:122-147 | the two loops of the anchor scan compute `AnchorLinks` |
| LinkSources.AttributesWithoutUrlHintIgnored | app/website_extractor.py:152-156 | an element none of whose attribute values contains '/' or "http" adds no link |
| LinkSources.ExtractAttributeUrls | app/website_extractor.py:149-157 | the element and attribute loops collect every `findall` match of every value that contains '/' or "http" |
| LinkSources.MemberUrls | app/website_extractor.py:188-192 | whatever one key/value pair contributes is a non-empty string that does not start with '#' |
| LinkSources.UrlsFromObj | app/website_extractor.py:184-196 | every collected string is non-empty and not a fragment; a scalar yields nothing |
| LinkSources.UrlsFromObjReference | app/website_extractor.py:184-196 | a string is collected exactly when it is stored under `href`, `url`, `link` or `src` in some object reachable from the root, at any depth |
| LinkSources.UrlsFromObjSound | app/website_extractor.py:184-196 | every collected string lies under a URL key of some object reachable from the root |
| LinkSources.UrlsFromObjComplete | app/website_extractor.py:184-196 | every collectable string under a URL key of a reachable object is collected, however deep |
| LinkSources.ExtractJsonUrls | app/website_extractor.py:159-173 | the attribute-name and element loops collect the JSON links of all four data attributes |
| LinkSources.MalformedJsonContributesNothing | app/website_extractor.py:166-172 | an element whose attributes do not parse as JSON adds nothing |
| LinkSources.ContactoFromDataProps | app/website_extractor.py:159-196 | a nested `{"props": {"href": "/contacto"}}` blob in `data-props` yields "/contacto" |
| LinkSources.JsonWalkKeepsMailto | app/website_extractor.py:189 | a `mailto:` value under `href` is collected by the JSON walk |
| LinkSources.ScriptLinksNeedSingleText | app/website_extractor.py:178-181 | an element that is not a `script` with one non-empty text node adds nothing |
| LinkSources.ExtractScriptUrls | app/website_extractor.py:175-182 | the script loop collects every `findall` match of every script's single, non-empty text |
| Extractor.RunStrategy | app/website_extractor.py:102-105 | running a strategy yields exactly its specified link set |
| Extractor.StrategyFailureIsolated | app/website_extractor.py:102-107 | a strategy that does not raise keeps all its links in the union, whatever the others do |
| Extractor.RaisingLosesOnlyOwnLinks | app/website_extractor.py:102-107 | a link lost when more strategies raise was found only by strategies that newly raised |
| Extractor.Deduplicate | app/website_extractor.py:119 | `list(set(xs))` has no duplicates and the same members as `xs` |
| Extractor.WebsiteExtractor.constructor | app/website_extractor.py:15-19 | the domain is the seed's host, and both link lists start empty |
| Extractor.WebsiteExtractor.PageContent | app/website_extractor.py:69-83 | "" when the fetch fails; otherwise the words of the page's visible text joined by single spaces, which is normalised text with exactly the non-whitespace characters of that text |
| Extractor.WebsiteExtractor.ExtractLinks | app/website_extractor.py:85-120 | on a failed fetch, [] with `all_links` unchanged; otherwise a duplicate-free list, also stored in `all_links`, whose members are exactly the resolved links of the strategies that do not raise, resolved against the URL or the seed |
| Extractor.WebsiteExtractor.FilterLinks | app/website_extractor.py:198-221 | the three loops store in `filtered_links` and return the kept priority links followed by the kept regular links |
| LinkFilter.KeptSteps | app/website_extractor.py:201-207 | the host filter followed by the exclusion filter selects exactly the kept links, in input order |
| LinkFilter.FilteredLinksPartition | app/website_extractor.py:210-219 | the result is the kept links with a priority pattern, then the kept links without one, each group in input order |
| LinkFilter.FilteredLinksSound | app/website_extractor.py:201-219 | every link of the result is on the seed's host and matches no exclusion pattern, ignoring case; a link has a priority pattern exactly when it lies in the leading group |
| LinkFilter.FilteredLinksMembership | app/website_extractor.py:198-221 | a link is in the result exactly when it is in `all_links`, on the seed's host and not excluded |
| LinkFilter.FilteredLinksPermutation | app/website_extractor.py:198-221 | the result is a reordering of the kept links, so it is never longer than `all_links` |
| LinkFilter.FilterLinksIdempotent | app/website_extractor.py:198-221 | filtering the filtered list returns it unchanged |
| LinkFilter.PriorityScenario | app/website_extractor.py:210-219 | three kept links of which only the middle one is a priority link come out with the middle one first |
| LinkFilter.LookAlikeHostKept | app/website_extractor.py:201 | a link whose host merely ends with the seed's domain is kept |
| ContentProcessor.Truncate | app/content_processor.py:12 | the batch is a prefix of the URLs of length `max_pages`, or of the length Python gives a negative bound |
| ContentProcessor.ChunksPartition | app/content_processor.py:42-46 | the chunks are non-empty, at most `chunk_size` long, all but the last exactly that long, and concatenate to the batch |
| ContentProcessor.Texts | app/content_processor.py:55-56 | the collected texts are non-empty and never more than the URLs |
| ContentProcessor.TextsAsFilter | app/content_processor.py:55-56 | the collected texts are exactly the non-empty results of processing each URL, in URL order |
| ContentProcessor.TextsPermutation | app/content_processor.py:49-56 | processing the same URLs in another order collects the same texts in another order |
| ContentProcessor.ChunkTextsCombine | app/content_processor.py:45-56 | per-chunk permutations of the chunks' texts add up to a permutation of the whole batch's texts |
| ContentProcessor.BatchTextsCombine | app/content_processor.py:45-56 | per-chunk permutations of a batch's chunks add up to a permutation of the batch's non-empty page texts, never more pieces than URLs |
| ContentProcessor.GroupByDomain | app/content_processor.py:20-23 | the keys are exactly the hosts of the batch, and each maps to that host's URLs in batch order |
| ContentProcessor.CreateExtractors | app/content_processor.py:26-30 | one new, distinct extractor per host, seeded with the host's first URL, with that URL's host as its domain and both link lists empty |
| ContentProcessor.ProcessUrl | app/content_processor.py:33-39 | a host without an extractor, a raising URL or a failed fetch gives ""; otherwise the page text |
| ContentProcessor.ProcessChunk | app/content_processor.py:49-58 | whatever the completion order, the chunk's collected texts are a permutation of its non-empty page texts |
| ContentProcessor.ProcessChunks | app/content_processor.py:45-58 | chunk k's texts are a permutation of chunk k's non-empty page texts and appear after those of earlier chunks; there are never more texts than URLs |
| ContentProcessor.GetAllPagesContent | app/content_processor.py:9-62 | an empty batch gives "" and no extractor; otherwise one extractor per host of the batch; the result is the separator-join of the per-chunk texts in chunk order, each chunk a permutation of its non-empty page texts; a chunk size of 0 or less gives ""; the result is "" exactly when no page of the batch gave text |
| ContentProcessor.ContentEmptyIffNoText | app/content_processor.py:55-62 | the joined content is empty exactly when no URL of the batch gave text |
| ContentProcessor.PartialFailureScenario | app/content_processor.py:33-62 | with one failing page and one page with text T, the result is exactly T in either completion order |

## Left out

- `functools.lru_cache` on `_get_soup` is not modelled. Each call fetches anew. Nor is the mutation of a cached document by `decompose()`: a later `extract_links` on the same URL would no longer see its scripts.
- HTTP details are not modelled: the session, headers, timeout and status handling. They are reduced to the `get` parameter's three outcomes.
- HTML parsing and CSS selectors are library code. A document is a sequence of elements. Each element carries an `inNav` flag in place of the navigation selectors. Multi-valued attributes such as `class` are not modelled: every attribute value is a string. An element records only the text nodes that come before its first child element. Text after a child element is encoded as a separate element with the tag `#text`, no attributes and `inNav` false, placed where the text sits in document order. The text order is therefore kept, but no element holds text interleaved with its children.
- The URL regular expression is not encoded. It is the `findUrls` parameter.
- `urlparse` and `urljoin` are the `netloc` and `urljoin` parameters. No property of reference resolution is claimed. `netloc` is total. A `ValueError` from `urlparse` (for example "Invalid IPv6 URL" on `http://[::1`) is not modelled. In the code it propagates to the caller from three places: `filter_links` (app/website_extractor.py:201), the `WebsiteExtractor` constructor (app/website_extractor.py:17) and the grouping loop of `get_all_pages_content` (app/content_processor.py:22). In the last two it aborts the whole `get_all_pages_content` call. The model's `GetAllPagesContent` always returns the join, so it does not cover a batch that holds such a URL.
- Text.Lower: folds ASCII letters only, not the full Unicode `lower()`.
- `visited_urls` of `WebsiteExtractor` is not modelled, because the code never reads it. The other fields the code reads do not appear as fields either. `session` (app/website_extractor.py:48, :57) is read only through the `get` parameter. `url_pattern` (:155, :180) is read only through `findUrls`. `exclude_patterns` (:206) and `priority_patterns` (:214) are the `Config` constants `ExcludePatterns` and `PriorityPatterns`.
- `MAX_WORKERS` and the thread pool are not modelled. URLs of a chunk are processed one at a time in a nondeterministically chosen order. A URL that occurs twice in a chunk is processed twice. The dictionary keyed by future does not merge such URLs, so `get_all_pages_content` also processes them twice.
- Logging is not modelled anywhere.
- `json.loads` keeps the last value of a repeated object key. A `JObject` keeps every member in order, so `parseJson` is expected to have resolved repeated keys already. Nothing in the model enforces distinct keys.
- `get_all_pages_content` is defined without its default argument. `max_pages` is always passed explicitly. `MAX_PAGES` is not used by the core.
- ContentProcessor.GetAllPagesContent: the extractors and the per-chunk texts appear only as ghost outputs. The contract therefore fixes the content only up to the order within each chunk.
- ContentProcessor.ProcessChunk: requires that every URL's host has an extractor. Its only caller creates one for every host of the batch, so the `KeyError` path of `process_url` is covered only by `ProcessUrl`.
- The `summarizer`, `comparator` and `main` modules and the example driver script are not part of this model. They hold UI, language-model calls and file I/O.
