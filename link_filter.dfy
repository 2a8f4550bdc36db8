/** What `WebsiteExtractor.filter_links` computes from the discovered links:
    keep the links on the seed's host, drop the excluded ones, then put the
    priority links before the rest. The class method that runs the loops is
    `Extractor.WebsiteExtractor.FilterLinks`; this module states and proves
    what its result is. */
module LinkFilter {
  import opened Text
  import opened Seqs
  import Config

  /** `self.domain in urlparse(link).netloc`: a substring test on the host,
      so subdomains and look-alike hosts pass as well. */
  predicate SameSite(link: string, domain: string, netloc: string -> string) {
    Contains(netloc(link), domain)
  }

  /** `any(exclude.lower() in link.lower() for exclude in EXCLUDE_PATTERNS)` */
  predicate Excluded(link: string) {
    exists i :: 0 <= i < |Config.ExcludePatterns| && Contains(Lower(link), Lower(Config.ExcludePatterns[i]))
  }

  /** `any(pattern in link.lower() for pattern in PRIORITY_PATTERNS)` */
  predicate IsPriority(link: string) {
    exists i :: 0 <= i < |Config.PriorityPatterns| && Contains(Lower(link), Config.PriorityPatterns[i])
  }

  /** A link survives the first two steps. */
  predicate Kept(link: string, domain: string, netloc: string -> string) {
    SameSite(link, domain, netloc) && !Excluded(link)
  }

  /** Step 1: `domain_links`. */
  function SameSiteLinks(links: seq<string>, domain: string, netloc: string -> string): seq<string> {
    Filter(links, l => SameSite(l, domain, netloc))
  }

  /** Step 2: `filtered`. */
  function NotExcluded(links: seq<string>): seq<string> {
    Filter(links, l => !Excluded(l))
  }

  /** Step 3, first group: `priority`. */
  function PriorityLinks(links: seq<string>): seq<string> {
    Filter(links, IsPriority)
  }

  /** Step 3, second group: `regular`. */
  function RegularLinks(links: seq<string>): seq<string> {
    Filter(links, l => !IsPriority(l))
  }

  /** The list `filter_links` stores in `filtered_links` and returns. */
  function FilteredLinks(links: seq<string>, domain: string, netloc: string -> string): seq<string> {
    var kept := NotExcluded(SameSiteLinks(links, domain, netloc));
    PriorityLinks(kept) + RegularLinks(kept)
  }

  /** Reference definitions, stated on the input list itself: the kept links,
      and the kept links with and without a priority pattern, each in input order. */
  function KeptLinks(links: seq<string>, domain: string, netloc: string -> string): seq<string> {
    Filter(links, l => Kept(l, domain, netloc))
  }

  function KeptPriority(links: seq<string>, domain: string, netloc: string -> string): seq<string> {
    Filter(links, l => Kept(l, domain, netloc) && IsPriority(l))
  }

  function KeptRegular(links: seq<string>, domain: string, netloc: string -> string): seq<string> {
    Filter(links, l => Kept(l, domain, netloc) && !IsPriority(l))
  }

  /** Steps 1 and 2 together select exactly the kept links, in input order. */
  lemma KeptSteps(links: seq<string>, domain: string, netloc: string -> string)
    ensures NotExcluded(SameSiteLinks(links, domain, netloc)) == KeptLinks(links, domain, netloc)
  {
    FilterFilter(links, l => SameSite(l, domain, netloc), l => !Excluded(l), l => Kept(l, domain, netloc));
  }

  /** The result is the kept priority links followed by the kept regular
      links, each group in the order of the input. */
  lemma FilteredLinksPartition(links: seq<string>, domain: string, netloc: string -> string)
    ensures FilteredLinks(links, domain, netloc)
         == KeptPriority(links, domain, netloc) + KeptRegular(links, domain, netloc)
  {
    var kept := KeptLinks(links, domain, netloc);
    KeptSteps(links, domain, netloc);
    FilterFilter(links, l => Kept(l, domain, netloc), IsPriority, l => Kept(l, domain, netloc) && IsPriority(l));
    FilterFilter(links, l => Kept(l, domain, netloc), l => !IsPriority(l), l => Kept(l, domain, netloc) && !IsPriority(l));
  }

  /** Every link of the result is on the seed's host and matches no exclusion
      pattern; the priority group holds exactly the links with a priority
      pattern, so the two groups are told apart by `IsPriority`. */
  lemma FilteredLinksSound(links: seq<string>, domain: string, netloc: string -> string)
    ensures var r := FilteredLinks(links, domain, netloc);
      forall i :: 0 <= i < |r| ==> SameSite(r[i], domain, netloc) && !Excluded(r[i])
    ensures var p := |KeptPriority(links, domain, netloc)|;
      var r := FilteredLinks(links, domain, netloc);
      p <= |r| && forall i :: 0 <= i < |r| ==> (IsPriority(r[i]) <==> i < p)
  {
    FilteredLinksPartition(links, domain, netloc);
  }

  /** A link is in the result exactly when it is in the input and kept. */
  lemma FilteredLinksMembership(links: seq<string>, domain: string, netloc: string -> string, x: string)
    ensures x in FilteredLinks(links, domain, netloc) <==> x in links && Kept(x, domain, netloc)
  {
    FilteredLinksPartition(links, domain, netloc);
    FilterMembership(links, l => Kept(l, domain, netloc) && IsPriority(l), x);
    FilterMembership(links, l => Kept(l, domain, netloc) && !IsPriority(l), x);
  }

  /** The result is a reordering of the kept links (each kept occurrence
      appears once), so it is never longer than the input. */
  lemma FilteredLinksPermutation(links: seq<string>, domain: string, netloc: string -> string)
    ensures multiset(FilteredLinks(links, domain, netloc)) == multiset(KeptLinks(links, domain, netloc))
    ensures |FilteredLinks(links, domain, netloc)| <= |links|
  {
    var kept := KeptLinks(links, domain, netloc);
    KeptSteps(links, domain, netloc);
    FilterPartition(kept, IsPriority, l => !IsPriority(l));
    assert |multiset(FilteredLinks(links, domain, netloc))| == |multiset(kept)|;
  }

  lemma KeptListUnchanged(r: seq<string>, domain: string, netloc: string -> string)
    requires forall i :: 0 <= i < |r| ==> Kept(r[i], domain, netloc)
    ensures NotExcluded(SameSiteLinks(r, domain, netloc)) == r
  {
    FilterAllPass(r, l => SameSite(l, domain, netloc));
    FilterAllPass(r, l => !Excluded(l));
  }

  lemma PartitionedListUnchanged(p: seq<string>, g: seq<string>)
    requires forall i :: 0 <= i < |p| ==> IsPriority(p[i])
    requires forall i :: 0 <= i < |g| ==> !IsPriority(g[i])
    ensures PriorityLinks(p + g) == p && RegularLinks(p + g) == g
  {
    FilterConcat(p, g, IsPriority);
    FilterAllPass(p, IsPriority);
    FilterNonePass(g, IsPriority);
    FilterConcat(p, g, l => !IsPriority(l));
    FilterNonePass(p, l => !IsPriority(l));
    FilterAllPass(g, l => !IsPriority(l));
  }

  /** Filtering a filtered list returns it unchanged. */
  lemma FilterLinksIdempotent(links: seq<string>, domain: string, netloc: string -> string)
    ensures FilteredLinks(FilteredLinks(links, domain, netloc), domain, netloc) == FilteredLinks(links, domain, netloc)
  {
    var p := KeptPriority(links, domain, netloc);
    var g := KeptRegular(links, domain, netloc);
    FilteredLinksPartition(links, domain, netloc);
    assert forall i :: 0 <= i < |p| ==> Kept(p[i], domain, netloc) && IsPriority(p[i]);
    assert forall i :: 0 <= i < |g| ==> Kept(g[i], domain, netloc) && !IsPriority(g[i]);
    KeptListUnchanged(p + g, domain, netloc);
    PartitionedListUnchanged(p, g);
  }

  /** Three kept links of which only the middle one has a priority pattern
      come out as `[b, a, c]`. */
  lemma PriorityScenario(a: string, b: string, c: string, domain: string, netloc: string -> string)
    requires Kept(a, domain, netloc) && Kept(b, domain, netloc) && Kept(c, domain, netloc)
    requires !IsPriority(a) && IsPriority(b) && !IsPriority(c)
    ensures FilteredLinks([a, b, c], domain, netloc) == [b, a, c]
  {
    var s := [a, b, c];
    assert s == [a] + [b] + [c];
    FilterConcat([a] + [b], [c], l => Kept(l, domain, netloc) && IsPriority(l));
    FilterConcat([a], [b], l => Kept(l, domain, netloc) && IsPriority(l));
    FilterConcat([a] + [b], [c], l => Kept(l, domain, netloc) && !IsPriority(l));
    FilterConcat([a], [b], l => Kept(l, domain, netloc) && !IsPriority(l));
    FilteredLinksPartition(s, domain, netloc);
  }

  /** The host test is a substring test: a link whose host merely ends with
      the seed's domain (such as "evil" + domain) is kept. */
  lemma LookAlikeHostKept(link: string, prefix: string, domain: string, netloc: string -> string)
    requires netloc(link) == prefix + domain
    requires !Excluded(link)
    ensures FilteredLinks([link], domain, netloc) != []
  {
    ContainsSuffix(prefix, domain);
    FilteredLinksMembership([link], domain, netloc, link);
  }
}
