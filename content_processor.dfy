/** `get_all_pages_content`: fetch the text of at most `max_pages` pages,
    one `WebsiteExtractor` per host, in chunks of at most ten URLs, and join
    the non-empty texts with the content separator. Within a chunk the pages
    finish in any order (the thread pool's completion order), so the model
    picks the next finished URL nondeterministically and promises only a
    permutation of the chunk's texts. `raises(u)` says that processing `u`
    raises inside library code (parsing or text extraction). */
module ContentProcessor {
  import opened Wrappers
  import opened Text
  import opened Seqs
  import opened Page
  import opened Extractor
  import Config

  /** `urls[:max_pages]`, with Python's meaning for a negative bound (count from the end). */
  function Truncate(urls: seq<string>, maxPages: int): (r: seq<string>)
    ensures |r| <= |urls| && r == urls[..|r|]
    ensures maxPages >= 0 ==> |r| == if maxPages < |urls| then maxPages else |urls|
    ensures maxPages < 0 ==> |r| == if |urls| + maxPages > 0 then |urls| + maxPages else 0
  {
    if maxPages >= 0 then
      (if maxPages < |urls| then urls[..maxPages] else urls)
    else
      (if |urls| + maxPages > 0 then urls[..|urls| + maxPages] else [])
  }

  /** `min(10, max_pages)` */
  function ChunkSize(maxPages: int): int {
    if maxPages < 10 then maxPages else 10
  }

  /** `[urls[i:i+size] for i in range(0, len(urls), size)]` */
  function Chunks(s: seq<string>, size: nat): seq<seq<string>>
    requires size > 0
    decreases |s|
  {
    if s == [] then []
    else
      var n := if size < |s| then size else |s|;
      [s[..n]] + Chunks(s[n..], size)
  }

  /** Concatenation of a sequence of sequences. */
  function Flatten(ss: seq<seq<string>>): seq<string>
    decreases |ss|
  {
    if ss == [] then [] else ss[0] + Flatten(ss[1..])
  }

  lemma {:induction false} FlattenAppend(a: seq<seq<string>>, b: seq<seq<string>>)
    ensures Flatten(a + b) == Flatten(a) + Flatten(b)
    decreases |a|
  {
    if a == [] {
      assert a + b == b;
    } else {
      assert (a + b)[1..] == a[1..] + b;
      FlattenAppend(a[1..], b);
    }
  }

  lemma FlattenSnoc(ss: seq<seq<string>>, s: seq<string>)
    ensures Flatten(ss + [s]) == Flatten(ss) + s
  {
    FlattenAppend(ss, [s]);
    assert Flatten([s]) == s + [];
  }

  lemma SliceMembers(s: seq<string>, lo: nat, hi: nat)
    requires lo <= hi <= |s|
    ensures forall u :: u in s[lo..hi] ==> u in s
  {
  }

  /** The chunks cover the list in order: each is non-empty and at most
      `size` long, every chunk but the last is exactly `size` long, and their
      concatenation is the list. */
  lemma {:induction false} ChunksPartition(s: seq<string>, size: nat)
    requires size > 0
    ensures Flatten(Chunks(s, size)) == s
    ensures forall k :: 0 <= k < |Chunks(s, size)| ==> 0 < |Chunks(s, size)[k]| <= size
    ensures forall k :: 0 <= k < |Chunks(s, size)| - 1 ==> |Chunks(s, size)[k]| == size
    decreases |s|
  {
    if s != [] {
      var n := if size < |s| then size else |s|;
      ChunksPartition(s[n..], size);
      assert s == s[..n] + s[n..];
    }
  }

  /** Splitting off the chunk that starts at `i`, once the chunks before it are `done`. */
  lemma ChunksStep(s: seq<string>, i: nat, size: nat, done: seq<seq<string>>)
    requires size > 0 && i < |s|
    requires Chunks(s, size) == done + Chunks(s[i..], size)
    ensures var end := if i + size <= |s| then i + size else |s|;
      Chunks(s, size) == (done + [s[i..end]]) + Chunks(s[end..], size)
  {
    var end := if i + size <= |s| then i + size else |s|;
    assert s[i..][..end - i] == s[i..end];
    assert s[i..][end - i..] == s[end..];
    assert Chunks(s[i..], size) == [s[i..end]] + Chunks(s[end..], size);
  }

  /** Chunk k's texts are a permutation of chunk k's non-empty page texts, for every k. */
  predicate ChunkwisePermutation(perChunk: seq<seq<string>>, chunks: seq<seq<string>>, contribution: string -> string) {
    |perChunk| == |chunks|
    && forall k :: 0 <= k < |chunks| ==> multiset(perChunk[k]) == multiset(Texts(chunks[k], contribution))
  }

  lemma ChunkwisePermutationAppend(perChunk: seq<seq<string>>, chunks: seq<seq<string>>, texts: seq<string>,
                                   chunk: seq<string>, contribution: string -> string)
    requires ChunkwisePermutation(perChunk, chunks, contribution)
    requires multiset(texts) == multiset(Texts(chunk, contribution))
    ensures ChunkwisePermutation(perChunk + [texts], chunks + [chunk], contribution)
  {
  }

  /** `process_url` when it finds an extractor: the page's text, or "" when
      the fetch fails or processing raises. */
  function Contribution(url: string, get: (string, bool) -> Response, raises: string -> bool): string {
    if raises(url) then ""
    else
      match FetchDocument(url, get)
      case None => ""
      case Some(doc) => PageText(doc)
  }

  /** The texts `results` collects from `urls`, in order: the non-empty
      values of `contribution`. */
  function Texts(urls: seq<string>, contribution: string -> string): (r: seq<string>)
    ensures |r| <= |urls|
    ensures forall i :: 0 <= i < |r| ==> r[i] != ""
    decreases |urls|
  {
    if urls == [] then []
    else
      var c := contribution(urls[|urls| - 1]);
      Texts(urls[..|urls| - 1], contribution) + (if c == "" then [] else [c])
  }
  /** `Texts` is the order-preserving selection of the non-empty results of
      applying `contribution` to every URL. */
  lemma {:induction false} TextsAsFilter(urls: seq<string>, contribution: string -> string)
    ensures Texts(urls, contribution)
            == Filter(seq(|urls|, i requires 0 <= i < |urls| => contribution(urls[i])), t => t != "")
    decreases |urls|
  {
    var applied := seq(|urls|, i requires 0 <= i < |urls| => contribution(urls[i]));
    if urls != [] {
      var init := urls[..|urls| - 1];
      TextsAsFilter(init, contribution);
      assert applied[..|applied| - 1] == seq(|init|, i requires 0 <= i < |init| => contribution(init[i]));
    }
  }


  lemma {:induction false} TextsAppend(a: seq<string>, b: seq<string>, contribution: string -> string)
    ensures Texts(a + b, contribution) == Texts(a, contribution) + Texts(b, contribution)
    decreases |b|
  {
    if b == [] {
      assert a + b == a;
    } else {
      var init := b[..|b| - 1];
      assert (a + b)[..|a + b| - 1] == a + init;
      TextsAppend(a, init, contribution);
    }
  }

  /** Processing the same URLs in another order yields the same texts in another order. */
  lemma {:induction false} TextsPermutation(a: seq<string>, b: seq<string>, contribution: string -> string)
    requires multiset(a) == multiset(b)
    ensures multiset(Texts(a, contribution)) == multiset(Texts(b, contribution))
    decreases |a|
  {
    if a != [] {
      var x := a[|a| - 1];
      var init := a[..|a| - 1];
      assert a == init + [x];
      assert x in multiset(b);
      var j :| 0 <= j < |b| && b[j] == x;
      var rest := b[..j] + b[j + 1..];
      assert b == b[..j] + [x] + b[j + 1..];
      assert multiset(b) == multiset(b[..j]) + multiset{x} + multiset(b[j + 1..]);
      assert multiset(a) == multiset(init) + multiset{x};
      assert multiset(rest) == multiset(b[..j]) + multiset(b[j + 1..]);
      assert multiset(init) == multiset(a) - multiset{x};
      assert multiset(rest) == multiset(b) - multiset{x};
      TextsPermutation(init, rest, contribution);
      TextsAppend(b[..j] + [x], b[j + 1..], contribution);
      TextsAppend(b[..j], [x], contribution);
      TextsAppend(b[..j], b[j + 1..], contribution);
      TextsAppend(init, [x], contribution);
    }
  }

  /** Per-chunk permutations of the chunks' texts add up to a permutation of
      the texts of the whole list, never more pieces than URLs. */
  lemma {:induction false} ChunkTextsCombine(chunks: seq<seq<string>>, perChunk: seq<seq<string>>,
                                             contribution: string -> string)
    requires ChunkwisePermutation(perChunk, chunks, contribution)
    ensures multiset(Flatten(perChunk)) == multiset(Texts(Flatten(chunks), contribution))
    ensures |Flatten(perChunk)| <= |Flatten(chunks)|
    decreases |chunks|
  {
    if chunks != [] {
      ChunkTextsCombine(chunks[1..], perChunk[1..], contribution);
      TextsAppend(chunks[0], Flatten(chunks[1..]), contribution);
      assert |perChunk[0]| == |multiset(perChunk[0])|;
    }
  }

  /** The same, for the chunks of one batch. */
  lemma BatchTextsCombine(batch: seq<string>, size: nat, perChunk: seq<seq<string>>, contribution: string -> string)
    requires size > 0
    requires ChunkwisePermutation(perChunk, Chunks(batch, size), contribution)
    ensures multiset(Flatten(perChunk)) == multiset(Texts(batch, contribution))
    ensures |Flatten(perChunk)| <= |batch|
  {
    ChunkTextsCombine(Chunks(batch, size), perChunk, contribution);
    ChunksPartition(batch, size);
  }

  /** The `domains` dictionary: each host of `urls` mapped to its URLs in order. */
  method GroupByDomain(urls: seq<string>, netloc: string -> string) returns (domains: map<string, seq<string>>)
    ensures domains.Keys == set u | u in urls :: netloc(u)
    ensures forall d :: d in domains ==> domains[d] == Filter(urls, u => netloc(u) == d) && domains[d] != []
  {
    domains := map[];
    for i := 0 to |urls|
      invariant Grouped(domains, urls[..i], netloc)
    {
      var url := urls[i];
      var domain := netloc(url);
      assert urls[..i + 1] == urls[..i] + [url];
      GroupedSnoc(domains, urls[..i], url, netloc);
      if domain in domains {
        domains := domains[domain := domains[domain] + [url]];
      } else {
        domains := domains[domain := [url]];
      }
    }
    assert urls[..|urls|] == urls;
  }

  /** `domains` groups `urls` by host: one key per host, holding that host's
      URLs in order. */
  ghost predicate Grouped(domains: map<string, seq<string>>, urls: seq<string>, netloc: string -> string) {
    && domains.Keys == (set u | u in urls :: netloc(u))
    && forall d :: d in domains ==> domains[d] == Filter(urls, u => netloc(u) == d) && domains[d] != []
  }

  /** One more URL extends its host's group, or starts a new one. */
  lemma GroupedSnoc(domains: map<string, seq<string>>, urls: seq<string>, url: string, netloc: string -> string)
    requires Grouped(domains, urls, netloc)
    ensures var d := netloc(url);
      Grouped(if d in domains then domains[d := domains[d] + [url]] else domains[d := [url]], urls + [url], netloc)
  {
    var d := netloc(url);
    var next := if d in domains then domains[d := domains[d] + [url]] else domains[d := [url]];
    assert (urls + [url])[..|urls|] == urls;
    if d !in domains {
      FilterNonePass(urls, u => netloc(u) == d);
    }
    forall k | k in next
      ensures next[k] == Filter(urls + [url], u => netloc(u) == k) && next[k] != []
    {
      assert Filter(urls + [url], u => netloc(u) == k)
             == Filter(urls, u => netloc(u) == k) + (if netloc(url) == k then [url] else []);
    }
  }


  /** The state `WebsiteExtractor(seed)` leaves an extractor in: seeded with
      `seed`, its domain the host of `seed`, and both link lists empty. */
  predicate Seeded(e: WebsiteExtractor, seed: string, netloc: string -> string)
    reads e
  {
    e.baseUrl == seed && e.domain == netloc(seed) && e.allLinks == [] && e.filteredLinks == []
  }

  /** The `extractors` dictionary: one new extractor per host, seeded with the
      host's first URL. */
  method CreateExtractors(domains: map<string, seq<string>>, netloc: string -> string)
    returns (extractors: map<string, WebsiteExtractor>)
    requires forall d :: d in domains ==> domains[d] != []
    ensures extractors.Keys == domains.Keys
    ensures forall d :: d in extractors ==> fresh(extractors[d]) && Seeded(extractors[d], domains[d][0], netloc)
    ensures forall d, d' :: d in extractors && d' in extractors && d != d' ==> extractors[d] != extractors[d']
  {
    extractors := map[];
    var pending := domains.Keys;
    while pending != {}
      invariant pending <= domains.Keys
      invariant extractors.Keys == domains.Keys - pending
      invariant forall d :: d in extractors ==> fresh(extractors[d]) && Seeded(extractors[d], domains[d][0], netloc)
      invariant forall d, d' :: d in extractors && d' in extractors && d != d' ==> extractors[d] != extractors[d']
      decreases pending
    {
      var domain :| domain in pending;
      var extractor := new WebsiteExtractor(domains[domain][0], netloc);
      extractors := extractors[domain := extractor];
      pending := pending - {domain};
    }
  }

  /** `process_url`: "" when the host has no extractor (the `KeyError` path);
      otherwise the page's contribution, whichever extractor serves it. */
  method ProcessUrl(url: string, extractors: map<string, WebsiteExtractor>, netloc: string -> string,
                    get: (string, bool) -> Response, raises: string -> bool) returns (text: string)
    ensures netloc(url) !in extractors ==> text == ""
    ensures netloc(url) in extractors ==> text == Contribution(url, get, raises)
  {
    var domain := netloc(url);
    if domain !in extractors || raises(url) {
      return "";
    }
    text := extractors[domain].PageContent(Some(url), get);
  }

  /** One chunk under the thread pool: every URL of the chunk is processed,
      in whatever order the submitted futures complete, and the non-empty texts are kept
      in that order. */
  method ProcessChunk(chunk: seq<string>, extractors: map<string, WebsiteExtractor>, netloc: string -> string,
                      get: (string, bool) -> Response, raises: string -> bool) returns (results: seq<string>)
    requires forall u :: u in chunk ==> netloc(u) in extractors
    ensures multiset(results) == multiset(Texts(chunk, u => Contribution(u, get, raises)))
  {
    var pending := multiset(chunk);
    ghost var finished: seq<string> := [];
    results := [];
    while pending != multiset{}
      invariant multiset(finished) + pending == multiset(chunk)
      invariant results == Texts(finished, u => Contribution(u, get, raises))
      decreases |pending|
    {
      var url :| url in pending;
      assert url in chunk by {
        assert url in multiset(chunk);
      }
      var result := ProcessUrl(url, extractors, netloc, get, raises);
      ghost var contribution := u => Contribution(u, get, raises);
      assert contribution(url) == result;
      assert Texts(finished + [url], contribution) == results + (if result == "" then [] else [result]) by {
        assert (finished + [url])[..|finished|] == finished;
      }
      if result != "" {
        results := results + [result];
      }
      pending := pending - multiset{url};
      finished := finished + [url];
    }
    TextsPermutation(finished, chunk, u => Contribution(u, get, raises));
  }

  /** The loop over the chunks: each chunk runs to completion before the
      next starts, and its texts are appended to `results`. `perChunk` is the
      model's view of what each chunk contributed, in completion order. */
  method ProcessChunks(batch: seq<string>, size: nat, extractors: map<string, WebsiteExtractor>,
                       netloc: string -> string, get: (string, bool) -> Response, raises: string -> bool)
    returns (results: seq<string>, ghost perChunk: seq<seq<string>>)
    requires size > 0
    requires forall u :: u in batch ==> netloc(u) in extractors
    ensures results == Flatten(perChunk)
    ensures ChunkwisePermutation(perChunk, Chunks(batch, size), u => Contribution(u, get, raises))
    ensures multiset(results) == multiset(Texts(batch, u => Contribution(u, get, raises)))
    ensures |results| <= |batch|
  {
    ghost var contribution := u => Contribution(u, get, raises);
    results := [];
    perChunk := [];
    var i := 0;
    ghost var done: seq<seq<string>> := [];
    assert batch[i..] == batch;
    while i < |batch|
      invariant 0 <= i <= |batch|
      invariant Chunks(batch, size) == done + Chunks(batch[i..], size)
      invariant ChunkwisePermutation(perChunk, done, contribution)
      invariant results == Flatten(perChunk)
      decreases |batch| - i
    {
      var end := if i + size <= |batch| then i + size else |batch|;
      var chunk := batch[i..end];
      SliceMembers(batch, i, end);
      ChunksStep(batch, i, size, done);
      var chunkResults := ProcessChunk(chunk, extractors, netloc, get, raises);
      ChunkwisePermutationAppend(perChunk, done, chunkResults, chunk, contribution);
      FlattenSnoc(perChunk, chunkResults);
      results := results + chunkResults;
      perChunk := perChunk + [chunkResults];
      done := done + [chunk];
      i := end;
    }
    assert batch[i..] == [];
    BatchTextsCombine(batch, size, perChunk, contribution);
  }

  /** `get_all_pages_content`. `extractors` and `perChunk` are the model's
      view of the run: the extractors created and, per chunk, the texts in the
      order they completed. */
  method GetAllPagesContent(urls: seq<string>, maxPages: int, netloc: string -> string,
                            get: (string, bool) -> Response, raises: string -> bool)
    returns (content: string, ghost extractors: map<string, WebsiteExtractor>, ghost perChunk: seq<seq<string>>)
    ensures Truncate(urls, maxPages) == [] ==> content == "" && extractors == map[]
    ensures Truncate(urls, maxPages) != [] ==> extractors.Keys == set u | u in Truncate(urls, maxPages) :: netloc(u)
    ensures content == Join(Config.ContentSeparator, Flatten(perChunk))
    ensures ChunkSize(maxPages) <= 0 ==> content == ""
    ensures ChunkSize(maxPages) > 0 ==>
      && ChunkwisePermutation(perChunk, Chunks(Truncate(urls, maxPages), ChunkSize(maxPages)),
                              u => Contribution(u, get, raises))
      && multiset(Flatten(perChunk)) == multiset(Texts(Truncate(urls, maxPages), u => Contribution(u, get, raises)))
      && |Flatten(perChunk)| <= |Truncate(urls, maxPages)|
      && (content == "" <==> Texts(Truncate(urls, maxPages), u => Contribution(u, get, raises)) == [])
  {
    var batch := Truncate(urls, maxPages);
    if batch == [] {
      return "", map[], [];
    }
    var domains := GroupByDomain(batch, netloc);
    var created := CreateExtractors(domains, netloc);
    extractors := created;

    var size := ChunkSize(maxPages);
    var results: seq<string> := [];
    perChunk := [];
    if size > 0 {
      results, perChunk := ProcessChunks(batch, size, created, netloc, get, raises);
      ContentEmptyIffNoText(results, batch, u => Contribution(u, get, raises));
    }
    content := Join(Config.ContentSeparator, results);
  }

  /** The joined content is empty exactly when no page of the batch gave
      text, whatever order the pieces completed in. */
  lemma ContentEmptyIffNoText(pieces: seq<string>, urls: seq<string>, contribution: string -> string)
    requires multiset(pieces) == multiset(Texts(urls, contribution))
    ensures Join(Config.ContentSeparator, pieces) == "" <==> Texts(urls, contribution) == []
  {
  }

  /** A batch of two URLs where the first page fails and the second has text
      "T" produces exactly "T", whatever the completion order. */
  lemma PartialFailureScenario(pieces: seq<string>, u1: string, u2: string, t: string,
                               get: (string, bool) -> Response, raises: string -> bool)
    requires Contribution(u1, get, raises) == "" && Contribution(u2, get, raises) == t && t != ""
    requires multiset(pieces) == multiset(Texts([u1, u2], u => Contribution(u, get, raises)))
    ensures Join(Config.ContentSeparator, pieces) == t
  {
    assert [u1, u2][..1] == [u1];
    assert Texts([u1, u2], u => Contribution(u, get, raises)) == [t];
    assert |pieces| == 1;
    assert pieces[0] in multiset(pieces);
  }
}
