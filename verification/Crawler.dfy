/** The bounded breadth-first crawler.
 *
 *  A site is a stable function from URLs to what the guarded client returns for them.
 */
module Crawler {
  import opened Prelude

  datatype Form = Form(method_: string, action: string, inputs: seq<string>)

  /** `hrefs` are the matches of the link pattern, already joined to the page's URL. */
  datatype Fetched =
    | ScopeBlocked(reason: string)
    | Unreachable(error: string)
    | Document(html: bool, forms: seq<Form>, hrefs: seq<string>)

  datatype Site = Site(
    fetch: string -> Fetched,
    host: string -> string,         // lower-cased host of a URL
    isHttp: string -> bool,         // starts with http:// or https://
    norm: string -> string)         // scheme, host and path without trailing slashes

  datatype Endpoint = Endpoint(method_: string, url: string, parameters: seq<Parameter>)

  datatype Parameter = Parameter(name: string, location: string)

  datatype Warning = Blocked(reason: string) | NotReached(url: string, error: string)

  /** One entry of the queue, and one request made by the crawler. */
  datatype Item = Item(url: string, depth: nat)

  predicate Follows(site: Site, seedHost: string, href: string) {
    site.isHttp(href) && site.host(href) == seedHost
  }

  /** The links a visited item puts on the frontier: same-host links of an HTML page. */
  predicate LinksTo(site: Site, seedHost: string, url: string, href: string) {
    var page := site.fetch(url);
    page.Document? && page.html && href in page.hrefs && site.isHttp(href) && site.host(href) == seedHost
  }

  // ---- What is recorded for one page ---------------------------------------------------------

  function FormEndpoint(form: Form): Endpoint {
    var location := if form.method_ != "GET" then "body" else "query";
    Endpoint(form.method_, form.action,
             seq(|form.inputs|, i requires 0 <= i < |form.inputs| => Parameter(form.inputs[i], location)))
  }

  function FormEndpoints(site: Site, seedHost: string, forms: seq<Form>): seq<Endpoint> {
    if forms == [] then []
    else
      var last := forms[|forms| - 1];
      FormEndpoints(site, seedHost, forms[..|forms| - 1]) +
      if site.host(last.action) == seedHost then [FormEndpoint(last)] else []
  }

  function PageEndpoints(site: Site, seedHost: string, url: string): seq<Endpoint> {
    var page := site.fetch(url);
    if !page.Document? then []
    else [Endpoint("GET", url, [])] + if page.html then FormEndpoints(site, seedHost, page.forms) else []
  }

  function PageWarnings(site: Site, url: string): seq<Warning> {
    match site.fetch(url)
    case ScopeBlocked(reason) => [Blocked(reason)]
    case Unreachable(error) => [NotReached(url, error)]
    case Document(_, _, _) => []
  }

  function AllEndpoints(site: Site, seedHost: string, visits: seq<Item>): seq<Endpoint> {
    if visits == [] then []
    else AllEndpoints(site, seedHost, visits[..|visits| - 1]) +
         PageEndpoints(site, seedHost, visits[|visits| - 1].url)
  }

  function AllWarnings(site: Site, visits: seq<Item>): seq<Warning> {
    if visits == [] then []
    else AllWarnings(site, visits[..|visits| - 1]) + PageWarnings(site, visits[|visits| - 1].url)
  }

  /** The endpoint of a form: its method and its action, and one parameter for each input, in the body
   *  unless the method is GET. */
  predicate Describes(e: Endpoint, form: Form) {
    e.method_ == form.method_ && e.url == form.action && |e.parameters| == |form.inputs| &&
    forall i :: 0 <= i < |form.inputs| ==>
      e.parameters[i].name == form.inputs[i] &&
      (e.parameters[i].location == "query" <==> form.method_ == "GET") &&
      (e.parameters[i].location == "body" <==> form.method_ != "GET")
  }

  /** The endpoints describe the forms whose action is on the host of the seed, in order, and no other. */
  ghost predicate DescribeForms(site: Site, seedHost: string, endpoints: seq<Endpoint>, forms: seq<Form>)
    decreases |forms|
  {
    if forms == [] then endpoints == []
    else
      var last := forms[|forms| - 1];
      if site.host(last.action) != seedHost then DescribeForms(site, seedHost, endpoints, forms[..|forms| - 1])
      else endpoints != [] && Describes(endpoints[|endpoints| - 1], last) &&
           DescribeForms(site, seedHost, endpoints[..|endpoints| - 1], forms[..|forms| - 1])
  }

  lemma {:induction false} FormsExactly(site: Site, seedHost: string, forms: seq<Form>)
    ensures DescribeForms(site, seedHost, FormEndpoints(site, seedHost, forms), forms)
    decreases |forms|
  {
    if forms != [] {
      var front, last := forms[..|forms| - 1], forms[|forms| - 1];
      FormsExactly(site, seedHost, front);
      assert "body" != "query" by { assert |"body"| != |"query"|; }
      var before := FormEndpoints(site, seedHost, front);
      if site.host(last.action) == seedHost {
        assert (before + [FormEndpoint(last)])[..|before|] == before;
      } else {
        assert before + [] == before;
      }
    }
  }

  /** A page that answers is an endpoint without parameters, followed by its forms if it is HTML; one
   *  that does not leaves a warning instead. */
  lemma PageExactly(site: Site, seedHost: string, url: string)
    ensures var page, found, warned := site.fetch(url), PageEndpoints(site, seedHost, url), PageWarnings(site, url);
            (found != [] <==> page.Document?) && (warned == [] <==> page.Document?) &&
            (page.Document? ==> found[0].method_ == "GET" && found[0].url == url && found[0].parameters == [] &&
                                if page.html then DescribeForms(site, seedHost, found[1..], page.forms) else |found| == 1) &&
            (page.ScopeBlocked? ==> warned == [Blocked(page.reason)]) &&
            (page.Unreachable? ==> warned == [NotReached(url, page.error)])
  {
    var page := site.fetch(url);
    if page.Document? && page.html {
      FormsExactly(site, seedHost, page.forms);
      assert PageEndpoints(site, seedHost, url)[1..] == FormEndpoints(site, seedHost, page.forms);
    }
  }

  /** The inventory is that of the pages in the order of the requests. */
  lemma InventoryGrows(site: Site, seedHost: string, visits: seq<Item>, item: Item)
    ensures AllEndpoints(site, seedHost, []) == [] && AllWarnings(site, []) == []
    ensures AllEndpoints(site, seedHost, visits + [item]) == AllEndpoints(site, seedHost, visits) + PageEndpoints(site, seedHost, item.url)
    ensures AllWarnings(site, visits + [item]) == AllWarnings(site, visits) + PageWarnings(site, item.url)
  {
    OneMoreVisit(site, seedHost, visits, item);
  }

  // ---- What a crawl guarantees ----------------------------------------------------------------

  /** The requests made, in order. No normalized URL is requested twice. */
  ghost predicate Distinct(site: Site, visits: seq<Item>) {
    forall i, j :: 0 <= i < j < |visits| ==> site.norm(visits[i].url) != site.norm(visits[j].url)
  }

  ghost predicate Seen(site: Site, visits: seq<Item>, n: string) {
    exists i :: 0 <= i < |visits| && site.norm(visits[i].url) == n
  }

  /** Requests are made in order of depth. */
  ghost predicate ByDepth(visits: seq<Item>) {
    forall i, j :: 0 <= i < j < |visits| ==> visits[i].depth <= visits[j].depth
  }

  /** An item is the seed at depth 0, or one step deeper than a visited page that links to it. */
  ghost predicate Discovered(site: Site, seed: string, visits: seq<Item>, item: Item) {
    if item.depth == 0 then item.url == seed
    else exists i :: 0 <= i < |visits| && visits[i].depth == item.depth - 1 &&
                     LinksTo(site, site.host(seed), visits[i].url, item.url)
  }

  /** No requested page is more than one step deeper than any visited page that links to it. */
  ghost predicate NoShortcut(site: Site, seed: string, visits: seq<Item>) {
    forall i, j, href ::
      (0 <= i < |visits| && 0 <= j < |visits| && LinksTo(site, site.host(seed), visits[i].url, href) &&
       site.norm(visits[j].url) == site.norm(href)) ==>
      visits[j].depth <= visits[i].depth + 1
  }

  /** The queue ran dry: every link worth following from a visited page was requested. */
  ghost predicate Complete(site: Site, seed: string, visits: seq<Item>, maxDepth: int) {
    forall i, href ::
      (0 <= i < |visits| && visits[i].depth < maxDepth &&
       LinksTo(site, site.host(seed), visits[i].url, href)) ==>
      Seen(site, visits, site.norm(href))
  }

  /** Whether or not the queue ran dry: a link worth following was requested, or nothing deeper
   *  than its place in the queue was. */
  ghost predicate Frontier(site: Site, seed: string, visits: seq<Item>, maxDepth: int) {
    forall i, href ::
      (0 <= i < |visits| && visits[i].depth < maxDepth &&
       LinksTo(site, site.host(seed), visits[i].url, href)) ==>
      Seen(site, visits, site.norm(href)) || NoneDeeper(visits, visits[i].depth + 1)
  }

  ghost predicate NoneDeeper(visits: seq<Item>, depth: int) {
    forall j :: 0 <= j < |visits| ==> visits[j].depth <= depth
  }

  ghost predicate Crawled(site: Site, seed: string, visits: seq<Item>, maxDepth: int) {
    Distinct(site, visits) && ByDepth(visits) && NoShortcut(site, seed, visits) &&
    (visits != [] ==> visits[0] == Item(seed, 0)) &&
    forall i :: 0 <= i < |visits| ==>
      visits[i].depth <= maxDepth && Discovered(site, seed, visits[..i], visits[i])
  }

  // ---- Loop invariants --------------------------------------------------------------------------

  /** The queue is sorted by depth and spans at most two depths. */
  ghost predicate TwoLevels(queue: seq<Item>) {
    (forall i, j :: 0 <= i < j < |queue| ==> queue[i].depth <= queue[j].depth) &&
    (forall i, j :: 0 <= i < |queue| && 0 <= j < |queue| ==> queue[j].depth <= queue[i].depth + 1)
  }

  ghost predicate Queued(site: Site, queue: seq<Item>, n: string, depth: int) {
    exists i :: 0 <= i < |queue| && site.norm(queue[i].url) == n && queue[i].depth <= depth
  }

  /** Requested already, or queued no deeper than `depth`. */
  ghost predicate Pending(site: Site, visits: seq<Item>, queue: seq<Item>, n: string, depth: int) {
    Seen(site, visits, n) || Queued(site, queue, n, depth)
  }

  /** The queue continues the visits: no page in it is shallower than a visited one. */
  ghost predicate Depths(visits: seq<Item>, queue: seq<Item>, maxDepth: int) {
    TwoLevels(queue) &&
    (forall i, j :: 0 <= i < |visits| && 0 <= j < |queue| ==> visits[i].depth <= queue[j].depth) &&
    (visits != [] ==> forall j :: 0 <= j < |queue| ==>
       queue[j].depth <= visits[|visits| - 1].depth + 1 && queue[j].depth <= maxDepth)
  }

  ghost predicate AllDiscovered(site: Site, seed: string, visits: seq<Item>, queue: seq<Item>) {
    forall j :: 0 <= j < |queue| ==> Discovered(site, seed, visits, queue[j])
  }

  /** The links of the first n visits are not lost. */
  ghost predicate LinksKept(site: Site, seed: string, visits: seq<Item>, queue: seq<Item>, n: nat, maxDepth: int)
    requires n <= |visits|
  {
    forall i, href ::
      (0 <= i < n && visits[i].depth < maxDepth && LinksTo(site, site.host(seed), visits[i].url, href)) ==>
      Pending(site, visits, queue, site.norm(href), visits[i].depth + 1)
  }

  /** Those of the given links that the crawl follows are not lost. */
  ghost predicate TheseKept(site: Site, seed: string, visits: seq<Item>, queue: seq<Item>, linked: seq<string>, depth: int) {
    forall href :: href in linked && Follows(site, site.host(seed), href) ==>
      Pending(site, visits, queue, site.norm(href), depth)
  }

  ghost predicate Ready(site: Site, seed: string, visits: seq<Item>, queue: seq<Item>, maxDepth: int) {
    Depths(visits, queue, maxDepth) && AllDiscovered(site, seed, visits, queue) &&
    LinksKept(site, seed, visits, queue, |visits|, maxDepth) &&
    (visits == [] ==> queue == [] || queue == [Item(seed, 0)])
  }

  lemma PendingWithoutHead(site: Site, visits: seq<Item>, queue: seq<Item>, n: string, depth: int)
    requires queue != [] && Seen(site, visits, site.norm(queue[0].url)) && Pending(site, visits, queue, n, depth)
    ensures Pending(site, visits, queue[1..], n, depth)
  {
    if !Seen(site, visits, n) {
      var k :| 0 <= k < |queue| && site.norm(queue[k].url) == n && queue[k].depth <= depth;
      assert k > 0 && queue[1..][k - 1] == queue[k];
    }
  }

  lemma TailDepths(visits: seq<Item>, queue: seq<Item>, maxDepth: int)
    requires Depths(visits, queue, maxDepth) && queue != []
    ensures Depths(visits, queue[1..], maxDepth)
  {
    assert forall j :: 0 <= j < |queue[1..]| ==> queue[1..][j] == queue[j + 1];
  }

  lemma SkipSeen(site: Site, seed: string, visits: seq<Item>, queue: seq<Item>, maxDepth: int)
    requires Ready(site, seed, visits, queue, maxDepth) && queue != []
    requires Seen(site, visits, site.norm(queue[0].url))
    ensures Ready(site, seed, visits, queue[1..], maxDepth)
  {
    TailDepths(visits, queue, maxDepth);
    forall i, href | 0 <= i < |visits| && visits[i].depth < maxDepth &&
      LinksTo(site, site.host(seed), visits[i].url, href)
      ensures Pending(site, visits, queue[1..], site.norm(href), visits[i].depth + 1)
    {
      PendingWithoutHead(site, visits, queue, site.norm(href), visits[i].depth + 1);
    }
  }

  lemma HeadIsNoShortcut(site: Site, seed: string, visits: seq<Item>, queue: seq<Item>, maxDepth: int)
    requires Ready(site, seed, visits, queue, maxDepth) && queue != []
    requires NoShortcut(site, seed, visits)
    requires !Seen(site, visits, site.norm(queue[0].url)) && queue[0].depth <= maxDepth
    ensures NoShortcut(site, seed, visits + [queue[0]])
  {
    var head := queue[0];
    var longer := visits + [head];
    forall i, j, href |
      0 <= i < |longer| && 0 <= j < |longer| &&
      LinksTo(site, site.host(seed), longer[i].url, href) && site.norm(longer[j].url) == site.norm(href)
      ensures longer[j].depth <= longer[i].depth + 1
    {
      if i < |visits| && j == |visits| {
        // The head was not seen, so the link is queued, no deeper than one step below visits[i].
        if visits[i].depth < maxDepth {
          assert visits[i] == longer[i];
          assert !Seen(site, visits, site.norm(href));
          assert Pending(site, visits, queue, site.norm(href), visits[i].depth + 1);
        }
      } else if i < |visits| {
        assert longer[i] == visits[i] && longer[j] == visits[j];
      }
    }
  }

  lemma HeadIsDiscovered(site: Site, seed: string, visits: seq<Item>, item: Item, maxDepth: int)
    requires Crawled(site, seed, visits, maxDepth) && Discovered(site, seed, visits, item)
    ensures forall i :: 0 <= i <= |visits| ==>
      Discovered(site, seed, (visits + [item])[..i], (visits + [item])[i])
  {
    var longer := visits + [item];
    forall i | 0 <= i <= |visits|
      ensures Discovered(site, seed, longer[..i], longer[i])
    {
      if i < |visits| {
        assert longer[..i] == visits[..i];
      } else {
        assert longer[..i] == visits;
      }
    }
  }

  /** Visiting the head of the queue keeps everything a crawl guarantees. */
  lemma VisitHead(site: Site, seed: string, visits: seq<Item>, queue: seq<Item>, maxDepth: int)
    requires Ready(site, seed, visits, queue, maxDepth) && queue != []
    requires Crawled(site, seed, visits, maxDepth)
    requires !Seen(site, visits, site.norm(queue[0].url)) && queue[0].depth <= maxDepth
    ensures Crawled(site, seed, visits + [queue[0]], maxDepth)
  {
    HeadIsNoShortcut(site, seed, visits, queue, maxDepth);
    HeadIsDiscovered(site, seed, visits, queue[0], maxDepth);
    HeadIsLast(site, visits, queue[0]);
    if visits == [] {
      assert [queue[0]] == visits + [queue[0]];
    }
  }

  lemma HeadIsLast(site: Site, visits: seq<Item>, item: Item)
    requires Distinct(site, visits) && ByDepth(visits) && !Seen(site, visits, site.norm(item.url))
    requires forall i :: 0 <= i < |visits| ==> visits[i].depth <= item.depth
    ensures Distinct(site, visits + [item]) && ByDepth(visits + [item])
  {
  }

  /** The frontier after a visit, before its links are appended. */
  ghost predicate Appending(site: Site, seed: string, visits: seq<Item>, queue: seq<Item>,
                            maxDepth: int, linked: seq<string>)
    requires visits != []
  {
    Depths(visits, queue, maxDepth) && AllDiscovered(site, seed, visits, queue) &&
    LinksKept(site, seed, visits, queue, |visits| - 1, maxDepth) &&
    TheseKept(site, seed, visits, queue, linked, visits[|visits| - 1].depth + 1)
  }

  lemma StillDiscovered(site: Site, seed: string, visits: seq<Item>, more: Item, item: Item)
    requires Discovered(site, seed, visits, item)
    ensures Discovered(site, seed, visits + [more], item)
  {
    if item.depth != 0 {
      var i :| 0 <= i < |visits| && visits[i].depth == item.depth - 1 &&
               LinksTo(site, site.host(seed), visits[i].url, item.url);
      assert (visits + [more])[i] == visits[i];
    }
  }

  /** Requesting the head of the queue loses no link. */
  lemma PendingAfterVisit(site: Site, visits: seq<Item>, queue: seq<Item>, n: string, depth: int)
    requires queue != [] && Pending(site, visits, queue, n, depth)
    ensures Pending(site, visits + [queue[0]], queue[1..], n, depth)
  {
    var longer := visits + [queue[0]];
    if Seen(site, visits, n) {
      var k :| 0 <= k < |visits| && site.norm(visits[k].url) == n;
      assert longer[k] == visits[k];
    } else {
      var k :| 0 <= k < |queue| && site.norm(queue[k].url) == n && queue[k].depth <= depth;
      if k == 0 {
        assert longer[|visits|] == queue[0];
      } else {
        assert queue[1..][k - 1] == queue[k];
      }
    }
  }

  lemma DepthsAfterVisit(site: Site, seed: string, visits: seq<Item>, queue: seq<Item>, maxDepth: int)
    requires Depths(visits, queue, maxDepth) && queue != [] && queue[0].depth <= maxDepth
    requires visits == [] ==> |queue| == 1
    ensures Depths(visits + [queue[0]], queue[1..], maxDepth)
  {
    TailDepths(visits, queue, maxDepth);
    assert forall j :: 0 <= j < |queue[1..]| ==> queue[1..][j] == queue[j + 1];
  }

  lemma StartAppending(site: Site, seed: string, visits: seq<Item>, queue: seq<Item>, maxDepth: int)
    requires Ready(site, seed, visits, queue, maxDepth) && queue != []
    requires queue[0].depth <= maxDepth
    ensures Appending(site, seed, visits + [queue[0]], queue[1..], maxDepth, [])
  {
    var head, rest := queue[0], queue[1..];
    var longer := visits + [head];
    DepthsAfterVisit(site, seed, visits, queue, maxDepth);
    forall j | 0 <= j < |rest|
      ensures Discovered(site, seed, longer, rest[j])
    {
      assert rest[j] == queue[j + 1];
      StillDiscovered(site, seed, visits, head, queue[j + 1]);
    }
    forall i, href | 0 <= i < |longer| - 1 && longer[i].depth < maxDepth &&
      LinksTo(site, site.host(seed), longer[i].url, href)
      ensures Pending(site, longer, rest, site.norm(href), longer[i].depth + 1)
    {
      assert longer[i] == visits[i];
      PendingAfterVisit(site, visits, queue, site.norm(href), visits[i].depth + 1);
    }
  }

  lemma StillPending(site: Site, visits: seq<Item>, queue: seq<Item>, item: Item, n: string, depth: int)
    requires Pending(site, visits, queue, n, depth)
    ensures Pending(site, visits, queue + [item], n, depth)
  {
    if !Seen(site, visits, n) {
      var k :| 0 <= k < |queue| && site.norm(queue[k].url) == n && queue[k].depth <= depth;
      assert (queue + [item])[k] == queue[k];
    }
  }

  lemma DepthsAfterLink(visits: seq<Item>, queue: seq<Item>, maxDepth: int, item: Item)
    requires visits != [] && Depths(visits, queue, maxDepth) && ByDepth(visits)
    requires item.depth == visits[|visits| - 1].depth + 1 && item.depth <= maxDepth
    ensures Depths(visits, queue + [item], maxDepth)
  {
    assert forall j :: 0 <= j < |queue| ==> (queue + [item])[j] == queue[j];
    assert forall i :: 0 <= i < |visits| ==> visits[i].depth <= visits[|visits| - 1].depth;
  }

  lemma LinksStayKept(site: Site, seed: string, visits: seq<Item>, queue: seq<Item>, maxDepth: int, item: Item)
    requires visits != [] && LinksKept(site, seed, visits, queue, |visits| - 1, maxDepth)
    ensures LinksKept(site, seed, visits, queue + [item], |visits| - 1, maxDepth)
  {
    forall i, href | 0 <= i < |visits| - 1 && visits[i].depth < maxDepth &&
      LinksTo(site, site.host(seed), visits[i].url, href)
      ensures Pending(site, visits, queue + [item], site.norm(href), visits[i].depth + 1)
    {
      StillPending(site, visits, queue, item, site.norm(href), visits[i].depth + 1);
    }
  }

  lemma OneMoreKept(site: Site, seed: string, visits: seq<Item>, queue: seq<Item>, linked: seq<string>, item: Item)
    requires TheseKept(site, seed, visits, queue, linked, item.depth)
    ensures TheseKept(site, seed, visits, queue + [item], linked + [item.url], item.depth)
  {
    forall href | href in linked + [item.url] && Follows(site, site.host(seed), href)
      ensures Pending(site, visits, queue + [item], site.norm(href), item.depth)
    {
      if href in linked {
        StillPending(site, visits, queue, item, site.norm(href), item.depth);
      } else {
        assert (queue + [item])[|queue|] == item;
      }
    }
  }

  lemma AppendLink(site: Site, seed: string, visits: seq<Item>, queue: seq<Item>,
                   maxDepth: int, linked: seq<string>, item: Item)
    requires visits != [] && Appending(site, seed, visits, queue, maxDepth, linked)
    requires LinksTo(site, site.host(seed), visits[|visits| - 1].url, item.url)
    requires item.depth == visits[|visits| - 1].depth + 1 && item.depth <= maxDepth && ByDepth(visits)
    ensures Appending(site, seed, visits, queue + [item], maxDepth, linked + [item.url])
  {
    DepthsAfterLink(visits, queue, maxDepth, item);
    LinksStayKept(site, seed, visits, queue, maxDepth, item);
    OneMoreKept(site, seed, visits, queue, linked, item);
    LinkIsDiscovered(site, seed, visits, queue, item);
  }

  lemma LinkIsDiscovered(site: Site, seed: string, visits: seq<Item>, queue: seq<Item>, item: Item)
    requires visits != [] && LinksTo(site, site.host(seed), visits[|visits| - 1].url, item.url)
    requires item.depth == visits[|visits| - 1].depth + 1 && AllDiscovered(site, seed, visits, queue)
    ensures AllDiscovered(site, seed, visits, queue + [item])
  {
    assert Discovered(site, seed, visits, item);
  }

  /** A link that leads to a requested page, or is not followed, need not be queued. */
  lemma PassLink(site: Site, seed: string, visits: seq<Item>, queue: seq<Item>,
                 maxDepth: int, linked: seq<string>, href: string)
    requires visits != [] && Appending(site, seed, visits, queue, maxDepth, linked)
    requires Follows(site, site.host(seed), href) ==> Seen(site, visits, site.norm(href))
    ensures Appending(site, seed, visits, queue, maxDepth, linked + [href])
  {
    var depth := visits[|visits| - 1].depth + 1;
    forall h | h in linked + [href] && Follows(site, site.host(seed), h)
      ensures Pending(site, visits, queue, site.norm(h), depth)
    {
      if h !in linked {
        assert h == href;
      }
    }
  }

  lemma DoneAppending(site: Site, seed: string, visits: seq<Item>, queue: seq<Item>,
                      maxDepth: int, linked: seq<string>)
    requires visits != [] && Appending(site, seed, visits, queue, maxDepth, linked)
    requires visits[|visits| - 1].depth < maxDepth ==>
      forall href :: LinksTo(site, site.host(seed), visits[|visits| - 1].url, href) ==> href in linked
    ensures Ready(site, seed, visits, queue, maxDepth)
  {
  }

  lemma Start(site: Site, seed: string, maxDepth: int)
    ensures Crawled(site, seed, [], maxDepth)
    ensures Ready(site, seed, [], [Item(seed, 0)], maxDepth)
    ensures forall n :: !Seen(site, [], n)
  {
    assert Discovered(site, seed, [], Item(seed, 0));
  }

  lemma SkipHead(site: Site, seed: string, visits: seq<Item>, queue: seq<Item>, maxDepth: int)
    requires Ready(site, seed, visits, queue, maxDepth) && queue != []
    requires Seen(site, visits, site.norm(queue[0].url)) || queue[0].depth > maxDepth
    ensures Ready(site, seed, visits, queue[1..], maxDepth)
    ensures visits == [] ==> maxDepth < 0
  {
    if visits != [] {
      SkipSeen(site, seed, visits, queue, maxDepth);
    }
  }

  lemma DryIsComplete(site: Site, seed: string, visits: seq<Item>, maxDepth: int)
    requires Ready(site, seed, visits, [], maxDepth)
    ensures Complete(site, seed, visits, maxDepth)
  {
  }

  lemma QueueIsFrontier(site: Site, seed: string, visits: seq<Item>, queue: seq<Item>, maxDepth: int)
    requires Ready(site, seed, visits, queue, maxDepth)
    ensures Frontier(site, seed, visits, maxDepth)
  {
    forall i, href | 0 <= i < |visits| && visits[i].depth < maxDepth &&
      LinksTo(site, site.host(seed), visits[i].url, href)
      ensures Seen(site, visits, site.norm(href)) || NoneDeeper(visits, visits[i].depth + 1)
    {
      assert Pending(site, visits, queue, site.norm(href), visits[i].depth + 1);
    }
  }

  // ---- The crawl -------------------------------------------------------------------------------

  /** The loop invariant of the crawl. */
  ghost predicate Inv(site: Site, seed: string, visits: seq<Item>, queue: seq<Item>, seen: set<string>, maxDepth: int) {
    Crawled(site, seed, visits, maxDepth) &&
    Ready(site, seed, visits, queue, maxDepth) &&
    (forall n :: n in seen <==> Seen(site, visits, n)) &&
    |seen| == |visits| &&
    (visits == [] && maxDepth >= 0 ==> queue != [])
  }

  method Crawl(site: Site, seed: string, maxPages: int, maxDepth: int)
    returns (endpoints: seq<Endpoint>, warnings: seq<Warning>, ghost visits: seq<Item>, ghost dry: bool)
    ensures Crawled(site, seed, visits, maxDepth)
    ensures |visits| <= MaxInt(maxPages, 0)
    ensures dry || |visits| >= maxPages
    ensures dry ==> Complete(site, seed, visits, maxDepth)
    ensures Frontier(site, seed, visits, maxDepth)
    ensures dry && maxDepth >= 0 ==> visits != []
    ensures endpoints == AllEndpoints(site, site.host(seed), visits)
    ensures warnings == AllWarnings(site, visits)
  {
    var seen: set<string> := {};
    endpoints, warnings := [], [];
    visits := [];
    var queue := [Item(seed, 0)];
    Start(site, seed, maxDepth);
    while queue != [] && |seen| < maxPages
      invariant Inv(site, seed, visits, queue, seen, maxDepth)
      invariant |seen| <= MaxInt(maxPages, 0)
      invariant endpoints == AllEndpoints(site, site.host(seed), visits)
      invariant warnings == AllWarnings(site, visits)
      decreases maxPages - |seen|, |queue|
    {
      var found, warned;
      queue, seen, found, warned, visits := Turn(site, seed, visits, queue, seen, maxDepth);
      endpoints := endpoints + found;
      warnings := warnings + warned;
    }
    dry := queue == [];
    QueueIsFrontier(site, seed, visits, queue, maxDepth);
    if dry {
      DryIsComplete(site, seed, visits, maxDepth);
    }
  }

  /** One turn of the loop: the head of the queue is dropped, or requested. */
  method Turn(site: Site, seed: string, ghost visits0: seq<Item>, queue0: seq<Item>, seen0: set<string>, maxDepth: int)
    returns (queue: seq<Item>, seen: set<string>, endpoints: seq<Endpoint>, warnings: seq<Warning>,
             ghost visits: seq<Item>)
    requires Inv(site, seed, visits0, queue0, seen0, maxDepth) && queue0 != []
    ensures Inv(site, seed, visits, queue, seen, maxDepth)
    ensures (seen == seen0 && queue == queue0[1..]) || |seen| == |seen0| + 1
    ensures AllEndpoints(site, site.host(seed), visits) == AllEndpoints(site, site.host(seed), visits0) + endpoints
    ensures AllWarnings(site, visits) == AllWarnings(site, visits0) + warnings
  {
    var item := queue0[0];
    if site.norm(item.url) in seen0 || item.depth > maxDepth {
      SkipKeepsInv(site, seed, visits0, queue0, seen0, maxDepth);
      return queue0[1..], seen0, [], [], visits0;
    }
    visits := visits0 + [item];
    queue, seen, endpoints, warnings := TakeTurn(site, seed, visits0, queue0, seen0, maxDepth);
  }

  lemma SkipKeepsInv(site: Site, seed: string, visits: seq<Item>, queue: seq<Item>, seen: set<string>, maxDepth: int)
    requires Inv(site, seed, visits, queue, seen, maxDepth) && queue != []
    requires site.norm(queue[0].url) in seen || queue[0].depth > maxDepth
    ensures Inv(site, seed, visits, queue[1..], seen, maxDepth)
  {
    SkipHead(site, seed, visits, queue, maxDepth);
  }

  lemma OneMoreVisit(site: Site, seedHost: string, visits: seq<Item>, item: Item)
    ensures AllEndpoints(site, seedHost, visits + [item]) == AllEndpoints(site, seedHost, visits) + PageEndpoints(site, seedHost, item.url)
    ensures AllWarnings(site, visits + [item]) == AllWarnings(site, visits) + PageWarnings(site, item.url)
  {
    assert (visits + [item])[..|visits|] == visits;
  }

  /** The head of the queue is new and not too deep: it is requested. */
  method TakeTurn(site: Site, seed: string, ghost visits: seq<Item>, queue0: seq<Item>, seen0: set<string>, maxDepth: int)
    returns (queue: seq<Item>, seen: set<string>, endpoints: seq<Endpoint>, warnings: seq<Warning>)
    requires Inv(site, seed, visits, queue0, seen0, maxDepth) && queue0 != []
    requires site.norm(queue0[0].url) !in seen0 && queue0[0].depth <= maxDepth
    ensures Inv(site, seed, visits + [queue0[0]], queue, seen, maxDepth)
    ensures |seen| == |seen0| + 1
    ensures AllEndpoints(site, site.host(seed), visits + [queue0[0]]) == AllEndpoints(site, site.host(seed), visits) + endpoints
    ensures AllWarnings(site, visits + [queue0[0]]) == AllWarnings(site, visits) + warnings
  {
    var item := queue0[0];
    OneMoreVisit(site, site.host(seed), visits, item);
    VisitHead(site, seed, visits, queue0, maxDepth);
    StartAppending(site, seed, visits, queue0, maxDepth);
    SeenOneMore(site, visits, item);
    seen := seen0 + {site.norm(item.url)};
    queue, endpoints, warnings := VisitPage(site, seed, visits + [item], queue0[1..], maxDepth, seen, item);
    Reestablish(site, seed, visits, item, queue, seen0, maxDepth);
  }

  lemma Reestablish(site: Site, seed: string, visits: seq<Item>, item: Item, queue: seq<Item>,
                    seen: set<string>, maxDepth: int)
    requires Crawled(site, seed, visits + [item], maxDepth)
    requires Ready(site, seed, visits + [item], queue, maxDepth)
    requires forall n :: n in seen <==> Seen(site, visits, n)
    requires |seen| == |visits| && !Seen(site, visits, site.norm(item.url))
    ensures Inv(site, seed, visits + [item], queue, seen + {site.norm(item.url)}, maxDepth)
  {
    SeenOneMore(site, visits, item);
  }

  /** Requests one page; its links go to the end of the queue. */
  method VisitPage(site: Site, seed: string, ghost visits: seq<Item>, queue0: seq<Item>, maxDepth: int,
                   seen: set<string>, item: Item)
    returns (queue: seq<Item>, endpoints: seq<Endpoint>, warnings: seq<Warning>)
    requires visits != [] && visits[|visits| - 1] == item && ByDepth(visits)
    requires Appending(site, seed, visits, queue0, maxDepth, [])
    requires forall n :: n in seen <==> Seen(site, visits, n)
    ensures Ready(site, seed, visits, queue, maxDepth)
    ensures endpoints == PageEndpoints(site, site.host(seed), item.url)
    ensures warnings == PageWarnings(site, item.url)
  {
    queue, endpoints, warnings := queue0, [], [];
    var page := site.fetch(item.url);
    if page.ScopeBlocked? {
      warnings := [Blocked(page.reason)];
    } else if page.Unreachable? {
      warnings := [NotReached(item.url, page.error)];
    } else {
      endpoints := [Endpoint("GET", item.url, [])];
      if page.html {
        var found := CollectForms(site, site.host(seed), page.forms);
        endpoints := endpoints + found;
        if item.depth < maxDepth {
          queue := Enqueue(site, seed, visits, queue, maxDepth, seen, item, page.hrefs);
          return;
        }
      }
    }
    DoneAppending(site, seed, visits, queue, maxDepth, []);
  }

  method CollectForms(site: Site, seedHost: string, forms: seq<Form>) returns (found: seq<Endpoint>)
    ensures found == FormEndpoints(site, seedHost, forms)
  {
    found := [];
    for k := 0 to |forms|
      invariant found == FormEndpoints(site, seedHost, forms[..k])
    {
      assert forms[..k + 1][..k] == forms[..k];
      if site.host(forms[k].action) == seedHost {
        found := found + [FormEndpoint(forms[k])];
      }
    }
    assert forms[..|forms|] == forms;
  }

  /** Appends the same-host links of the page just visited that were not seen yet. */
  method Enqueue(site: Site, seed: string, ghost visits: seq<Item>, queue0: seq<Item>, maxDepth: int,
                 seen: set<string>, item: Item, hrefs: seq<string>)
    returns (queue: seq<Item>)
    requires visits != [] && visits[|visits| - 1] == item && item.depth < maxDepth && ByDepth(visits)
    requires site.fetch(item.url).Document? && site.fetch(item.url).html && site.fetch(item.url).hrefs == hrefs
    requires Appending(site, seed, visits, queue0, maxDepth, [])
    requires forall n :: n in seen <==> Seen(site, visits, n)
    ensures Ready(site, seed, visits, queue, maxDepth)
  {
    queue := queue0;
    for k := 0 to |hrefs|
      invariant Appending(site, seed, visits, queue, maxDepth, hrefs[..k])
    {
      assert hrefs[..k + 1] == hrefs[..k] + [hrefs[k]];
      if Follows(site, site.host(seed), hrefs[k]) && site.norm(hrefs[k]) !in seen {
        AppendLink(site, seed, visits, queue, maxDepth, hrefs[..k], Item(hrefs[k], item.depth + 1));
        queue := queue + [Item(hrefs[k], item.depth + 1)];
      } else {
        PassLink(site, seed, visits, queue, maxDepth, hrefs[..k], hrefs[k]);
      }
    }
    assert hrefs[..|hrefs|] == hrefs;
    DoneAppending(site, seed, visits, queue, maxDepth, hrefs);
  }

  lemma SeenOneMore(site: Site, visits: seq<Item>, item: Item)
    ensures forall n :: Seen(site, visits + [item], n) <==> Seen(site, visits, n) || n == site.norm(item.url)
  {
    var longer := visits + [item];
    forall n
      ensures Seen(site, longer, n) <==> Seen(site, visits, n) || n == site.norm(item.url)
    {
      if Seen(site, visits, n) {
        var i :| 0 <= i < |visits| && site.norm(visits[i].url) == n;
        assert longer[i] == visits[i];
      }
      if n == site.norm(item.url) {
        assert longer[|visits|] == item;
      }
    }
  }

  // ---- Minimality --------------------------------------------------------------------------------

  /** A chain of visited pages from the seed, each linking to the next up to normalization. */
  ghost predicate IsChain(site: Site, seed: string, visits: seq<Item>, chain: seq<int>) {
    chain != [] && chain[0] == 0 &&
    (forall k :: 0 <= k < |chain| ==> 0 <= chain[k] < |visits|) &&
    forall k :: 0 <= k < |chain| - 1 ==> Step(site, seed, visits, chain[k], chain[k + 1])
  }

  ghost predicate Step(site: Site, seed: string, visits: seq<Item>, i: int, j: int)
    requires 0 <= i < |visits| && 0 <= j < |visits|
  {
    exists href :: LinksTo(site, site.host(seed), visits[i].url, href) &&
                   site.norm(href) == site.norm(visits[j].url)
  }

  /** No chain reaches a page in fewer steps than the depth it was requested at ... */
  lemma {:induction false} ChainIsNoShorter(site: Site, seed: string, visits: seq<Item>, maxDepth: int, chain: seq<int>)
    requires Crawled(site, seed, visits, maxDepth) && IsChain(site, seed, visits, chain)
    ensures visits[chain[|chain| - 1]].depth <= |chain| - 1
    decreases |chain|
  {
    if |chain| > 1 {
      var init := chain[..|chain| - 1];
      forall k | 0 <= k < |init| - 1
        ensures Step(site, seed, visits, init[k], init[k + 1])
      {
        assert Step(site, seed, visits, chain[k], chain[k + 1]);
      }
      ChainIsNoShorter(site, seed, visits, maxDepth, init);
      assert Step(site, seed, visits, chain[|chain| - 2], chain[|chain| - 2 + 1]);
    }
  }

  /** ... and some chain of visited pages has exactly that many. */
  lemma {:induction false} ShortestChain(site: Site, seed: string, visits: seq<Item>, maxDepth: int, j: nat)
    returns (chain: seq<int>)
    requires Crawled(site, seed, visits, maxDepth) && j < |visits|
    ensures IsChain(site, seed, visits, chain) && chain[|chain| - 1] == j
    ensures |chain| - 1 == visits[j].depth
    decreases j
  {
    assert Discovered(site, seed, visits[..j], visits[j]);
    if visits[j].depth == 0 {
      assert visits[0].url == visits[j].url;
      chain := [0];
    } else {
      var i :| 0 <= i < |visits[..j]| && visits[..j][i].depth == visits[j].depth - 1 &&
               LinksTo(site, site.host(seed), visits[..j][i].url, visits[j].url);
      var init := ShortestChain(site, seed, visits, maxDepth, i);
      assert Step(site, seed, visits, i, j);
      ExtendChain(site, seed, visits, init, j);
      chain := init + [j];
    }
  }

  lemma ExtendChain(site: Site, seed: string, visits: seq<Item>, chain: seq<int>, j: nat)
    requires IsChain(site, seed, visits, chain) && j < |visits|
    requires Step(site, seed, visits, chain[|chain| - 1], j)
    ensures IsChain(site, seed, visits, chain + [j])
  {
    var longer := chain + [j];
    forall k | 0 <= k < |longer| - 1
      ensures Step(site, seed, visits, longer[k], longer[k + 1])
    {
      if k < |chain| - 1 {
        assert Step(site, seed, visits, chain[k], chain[k + 1]);
      }
    }
  }

  /** Breadth-first minimality: the depth of a request is the length of the shortest chain of
   *  same-host links from the seed through requested HTML pages. */
  lemma DepthIsDistance(site: Site, seed: string, visits: seq<Item>, maxDepth: int, j: nat)
    requires Crawled(site, seed, visits, maxDepth) && j < |visits|
    ensures exists chain ::
      IsChain(site, seed, visits, chain) && chain[|chain| - 1] == j && |chain| - 1 == visits[j].depth
    ensures forall chain ::
      IsChain(site, seed, visits, chain) && chain[|chain| - 1] == j ==> visits[j].depth <= |chain| - 1
  {
    var chain := ShortestChain(site, seed, visits, maxDepth, j);
    forall other | IsChain(site, seed, visits, other) && other[|other| - 1] == j
      ensures visits[j].depth <= |other| - 1
    {
      ChainIsNoShorter(site, seed, visits, maxDepth, other);
    }
  }

  // ---- All links of the site -------------------------------------------------------------------------

  /** A chain of URLs from the seed, each a same-host link of the HTML page before it, whether or
   *  not the crawl requested them. */
  ghost predicate LinkChain(site: Site, seed: string, chain: seq<string>) {
    chain != [] && chain[0] == seed &&
    forall k :: 0 <= k < |chain| - 1 ==> LinksTo(site, site.host(seed), chain[k], chain[k + 1])
  }

  /** At most n links from the seed. */
  ghost predicate InReach(site: Site, seed: string, url: string, n: int) {
    exists chain :: LinkChain(site, seed, chain) && chain[|chain| - 1] == url && |chain| - 1 <= n
  }

  /** URLs of one normal form lead to the same normal forms, as far as their links are followed. The
   *  crawl requests only one URL of each, so what only the others link to stays out of its sight. */
  ghost predicate Uniform(site: Site, seed: string, maxDepth: int) {
    forall u, v, href ::
      InReach(site, seed, u, maxDepth - 1) && InReach(site, seed, v, maxDepth - 1) && site.norm(u) == site.norm(v) &&
      LinksTo(site, site.host(seed), u, href) ==>
        LinksToForm(site, site.host(seed), v, site.norm(href))
  }

  ghost predicate LinksToForm(site: Site, seedHost: string, url: string, n: string) {
    exists href :: LinksTo(site, seedHost, url, href) && site.norm(href) == n
  }

  /** A page of this normal form was requested at this depth or above. */
  ghost predicate SeenBy(site: Site, visits: seq<Item>, n: string, depth: int) {
    exists i :: 0 <= i < |visits| && site.norm(visits[i].url) == n && visits[i].depth <= depth
  }

  lemma ChainFront(site: Site, seed: string, chain: seq<string>)
    requires LinkChain(site, seed, chain) && |chain| > 1
    ensures LinkChain(site, seed, chain[..|chain| - 1])
    ensures LinksTo(site, site.host(seed), chain[|chain| - 2], chain[|chain| - 1])
  {
    assert LinksTo(site, site.host(seed), chain[|chain| - 2], chain[|chain| - 2 + 1]);
  }

  /** The links along which a page was discovered. */
  lemma {:induction false} DiscoveryChain(site: Site, seed: string, visits: seq<Item>, maxDepth: int, j: nat)
    returns (chain: seq<string>)
    requires Crawled(site, seed, visits, maxDepth) && j < |visits|
    ensures LinkChain(site, seed, chain) && chain[|chain| - 1] == visits[j].url && |chain| - 1 == visits[j].depth
    decreases j
  {
    assert Discovered(site, seed, visits[..j], visits[j]);
    if visits[j].depth == 0 {
      chain := [seed];
    } else {
      var i :| 0 <= i < |visits[..j]| && visits[..j][i].depth == visits[j].depth - 1 &&
               LinksTo(site, site.host(seed), visits[..j][i].url, visits[j].url);
      var front := DiscoveryChain(site, seed, visits, maxDepth, i);
      chain := LongerChain(site, seed, front, visits[j].url);
    }
  }

  lemma LongerChain(site: Site, seed: string, front: seq<string>, url: string) returns (chain: seq<string>)
    requires LinkChain(site, seed, front) && LinksTo(site, site.host(seed), front[|front| - 1], url)
    ensures chain == front + [url] && LinkChain(site, seed, chain)
  {
    chain := front + [url];
    forall k | 0 <= k < |chain| - 1
      ensures LinksTo(site, site.host(seed), chain[k], chain[k + 1])
    {
      if k < |front| - 1 {
        assert LinksTo(site, site.host(seed), front[k], front[k + 1]);
      }
    }
  }

  /** One link further: seen in time, or nothing deeper was requested. */
  lemma OneLinkFurther(site: Site, seed: string, visits: seq<Item>, maxDepth: int, url: string, href: string, depth: int)
    requires Crawled(site, seed, visits, maxDepth) && Frontier(site, seed, visits, maxDepth)
    requires Uniform(site, seed, maxDepth) && LinksTo(site, site.host(seed), url, href)
    requires InReach(site, seed, url, depth) && depth < maxDepth && SeenBy(site, visits, site.norm(url), depth)
    ensures SeenBy(site, visits, site.norm(href), depth + 1) || NoneDeeper(visits, depth + 1)
    ensures Complete(site, seed, visits, maxDepth) ==> SeenBy(site, visits, site.norm(href), depth + 1)
  {
    var i :| 0 <= i < |visits| && site.norm(visits[i].url) == site.norm(url) && visits[i].depth <= depth;
    var known := DiscoveryChain(site, seed, visits, maxDepth, i);
    assert InReach(site, seed, visits[i].url, maxDepth - 1) && InReach(site, seed, url, maxDepth - 1);
    assert LinksToForm(site, site.host(seed), visits[i].url, site.norm(href));
    var twin :| LinksTo(site, site.host(seed), visits[i].url, twin) && site.norm(twin) == site.norm(href);
    if Seen(site, visits, site.norm(href)) {
      var j :| 0 <= j < |visits| && site.norm(visits[j].url) == site.norm(href);
      assert visits[j].depth <= visits[i].depth + 1;
    } else if visits[i].depth < maxDepth {
      assert Seen(site, visits, site.norm(twin)) || NoneDeeper(visits, visits[i].depth + 1);
    }
  }

  /** The crawl has kept up with a chain of this length to the URL: its form was seen in time, or
   *  nothing deeper was requested. */
  ghost predicate KeptUp(site: Site, seed: string, visits: seq<Item>, maxDepth: int, url: string, length: nat) {
    (SeenBy(site, visits, site.norm(url), length) || NoneDeeper(visits, length)) &&
    (Complete(site, seed, visits, maxDepth) && length <= maxDepth ==> SeenBy(site, visits, site.norm(url), length))
  }

  lemma KeepsUpOneLink(site: Site, seed: string, visits: seq<Item>, maxDepth: int, url: string, href: string, length: nat)
    requires Crawled(site, seed, visits, maxDepth) && Frontier(site, seed, visits, maxDepth)
    requires Uniform(site, seed, maxDepth) && LinksTo(site, site.host(seed), url, href)
    requires InReach(site, seed, url, length) && KeptUp(site, seed, visits, maxDepth, url, length)
    ensures KeptUp(site, seed, visits, maxDepth, href, length + 1)
  {
    if length < maxDepth && SeenBy(site, visits, site.norm(url), length) {
      OneLinkFurther(site, seed, visits, maxDepth, url, href, length);
    }
  }

  lemma {:induction false} ChainIsKeptUp(site: Site, seed: string, visits: seq<Item>, maxDepth: int, chain: seq<string>)
    requires Crawled(site, seed, visits, maxDepth) && Frontier(site, seed, visits, maxDepth)
    requires Uniform(site, seed, maxDepth) && visits != [] && LinkChain(site, seed, chain)
    ensures KeptUp(site, seed, visits, maxDepth, chain[|chain| - 1], |chain| - 1)
    decreases |chain|
  {
    if |chain| == 1 {
      assert site.norm(visits[0].url) == site.norm(chain[0]);
    } else {
      var front := chain[..|chain| - 1];
      ChainFront(site, seed, chain);
      ChainIsKeptUp(site, seed, visits, maxDepth, front);
      ChainReaches(site, seed, front);
      KeepsUpOneLink(site, seed, visits, maxDepth, chain[|chain| - 2], chain[|chain| - 1], |front| - 1);
    }
  }

  lemma ChainReaches(site: Site, seed: string, chain: seq<string>)
    requires LinkChain(site, seed, chain)
    ensures InReach(site, seed, chain[|chain| - 1], |chain| - 1)
  {
  }

  /** Completeness: when the queue ran dry, every page within maxDepth links of the seed was
   *  requested under its normal form, if URLs of one normal form lead to the same ones. */
  lemma EverythingInReachIsSeen(site: Site, seed: string, visits: seq<Item>, maxDepth: int, chain: seq<string>)
    requires Crawled(site, seed, visits, maxDepth) && Complete(site, seed, visits, maxDepth)
    requires Uniform(site, seed, maxDepth) && visits != []
    requires LinkChain(site, seed, chain) && |chain| - 1 <= maxDepth
    ensures SeenBy(site, visits, site.norm(chain[|chain| - 1]), |chain| - 1)
  {
    assert Frontier(site, seed, visits, maxDepth);
    ChainIsKeptUp(site, seed, visits, maxDepth, chain);
  }

  /** No page in reach is linked only from URLs that were not requested in time. */
  ghost predicate NothingHidden(site: Site, seed: string, visits: seq<Item>, maxDepth: int) {
    forall chain ::
      LinkChain(site, seed, chain) && 1 < |chain| <= maxDepth + 1 && site.norm(chain[|chain| - 1]) != site.norm(seed) ==>
        LinkedBy(site, seed, visits, site.norm(chain[|chain| - 1]), |chain| - 2)
  }

  ghost predicate LinkedBy(site: Site, seed: string, visits: seq<Item>, n: string, depth: int) {
    exists i :: 0 <= i < |visits| && visits[i].depth <= depth && LinksToForm(site, site.host(seed), visits[i].url, n)
  }

  ghost predicate AllInReachSeen(site: Site, seed: string, visits: seq<Item>, maxDepth: int) {
    forall chain :: LinkChain(site, seed, chain) && |chain| - 1 <= maxDepth ==>
      SeenBy(site, visits, site.norm(chain[|chain| - 1]), |chain| - 1)
  }

  lemma SeenIsLinked(site: Site, seed: string, visits: seq<Item>, maxDepth: int, n: string, depth: int)
    requires Crawled(site, seed, visits, maxDepth) && SeenBy(site, visits, n, depth) && n != site.norm(seed)
    ensures LinkedBy(site, seed, visits, n, depth - 1)
  {
    var j :| 0 <= j < |visits| && site.norm(visits[j].url) == n && visits[j].depth <= depth;
    assert Discovered(site, seed, visits[..j], visits[j]);
    var i :| 0 <= i < |visits[..j]| && visits[..j][i].depth == visits[j].depth - 1 &&
             LinksTo(site, site.host(seed), visits[..j][i].url, visits[j].url);
    assert LinksToForm(site, site.host(seed), visits[i].url, n);
  }

  lemma LinkedIsSeen(site: Site, seed: string, visits: seq<Item>, maxDepth: int, n: string, depth: int)
    requires Crawled(site, seed, visits, maxDepth) && Complete(site, seed, visits, maxDepth)
    requires LinkedBy(site, seed, visits, n, depth) && depth < maxDepth
    ensures SeenBy(site, visits, n, depth + 1)
  {
    var i :| 0 <= i < |visits| && visits[i].depth <= depth && LinksToForm(site, site.host(seed), visits[i].url, n);
    var href :| LinksTo(site, site.host(seed), visits[i].url, href) && site.norm(href) == n;
    assert Seen(site, visits, site.norm(href));
    var j :| 0 <= j < |visits| && site.norm(visits[j].url) == n;
    assert visits[j].depth <= visits[i].depth + 1;
  }

  /** Completeness, exactly: a crawl that ran dry has requested every page in reach, no later than at
   *  its distance, if and only if none of them is hidden behind URLs it did not request. */
  lemma EverythingIsSeenExactly(site: Site, seed: string, visits: seq<Item>, maxDepth: int)
    requires Crawled(site, seed, visits, maxDepth) && Complete(site, seed, visits, maxDepth) && visits != []
    ensures AllInReachSeen(site, seed, visits, maxDepth) <==> NothingHidden(site, seed, visits, maxDepth)
  {
    if NothingHidden(site, seed, visits, maxDepth) {
      forall chain | LinkChain(site, seed, chain) && |chain| - 1 <= maxDepth
        ensures SeenBy(site, visits, site.norm(chain[|chain| - 1]), |chain| - 1)
      {
        if site.norm(chain[|chain| - 1]) == site.norm(seed) {
          assert visits[0] == Item(seed, 0);
        } else {
          LinkedIsSeen(site, seed, visits, maxDepth, site.norm(chain[|chain| - 1]), |chain| - 2);
        }
      }
    } else {
      var chain :| LinkChain(site, seed, chain) && 1 < |chain| <= maxDepth + 1 &&
                   site.norm(chain[|chain| - 1]) != site.norm(seed) &&
                   !LinkedBy(site, seed, visits, site.norm(chain[|chain| - 1]), |chain| - 2);
      if AllInReachSeen(site, seed, visits, maxDepth) {
        SeenIsLinked(site, seed, visits, maxDepth, site.norm(chain[|chain| - 1]), |chain| - 1);
      }
    }
  }

  /** Minimality on the whole site, also when the page limit cut the crawl short: no chain of
   *  links reaches the normal form of a requested page in fewer steps than its depth, and some
   *  chain has exactly that many. */
  lemma DepthIsDistanceOnTheSite(site: Site, seed: string, visits: seq<Item>, maxDepth: int, j: nat)
    requires Crawled(site, seed, visits, maxDepth) && Frontier(site, seed, visits, maxDepth)
    requires Uniform(site, seed, maxDepth) && j < |visits|
    ensures exists chain ::
      LinkChain(site, seed, chain) && chain[|chain| - 1] == visits[j].url && |chain| - 1 == visits[j].depth
    ensures forall chain ::
      (LinkChain(site, seed, chain) && site.norm(chain[|chain| - 1]) == site.norm(visits[j].url)) ==>
      visits[j].depth <= |chain| - 1
  {
    var shortest := DiscoveryChain(site, seed, visits, maxDepth, j);
    forall chain | LinkChain(site, seed, chain) && site.norm(chain[|chain| - 1]) == site.norm(visits[j].url)
      ensures visits[j].depth <= |chain| - 1
    {
      ChainIsKeptUp(site, seed, visits, maxDepth, chain);
      if SeenBy(site, visits, site.norm(visits[j].url), |chain| - 1) {
        var i :| 0 <= i < |visits| && site.norm(visits[i].url) == site.norm(visits[j].url) && visits[i].depth <= |chain| - 1;
        assert i == j;
      }
    }
  }

  // ---- A page behind a query ----------------------------------------------------------------------------

  /** Normalization drops the query. */
  function WithoutQuery(url: string): string {
    if url == "" || url[0] == '?' then "" else [url[0]] + WithoutQuery(url[1..])
  }

  /** A seed with two links that differ in the query; the second leads to one page more. URLs are
   *  shortened to what matters. */
  function QuerySite(): Site {
    Site((url: string) =>
           if url == "s" then Document(true, [], ["p?1", "p?2"])
           else if url == "p?2" then Document(true, [], ["q"])
           else Document(true, [], []),
         (url: string) => "h", (url: string) => true, WithoutQuery)
  }

  lemma QueryForms()
    ensures WithoutQuery("s") == "s" && WithoutQuery("q") == "q"
    ensures WithoutQuery("p?1") == "p" && WithoutQuery("p?2") == "p"
  {
    assert "p?1"[1..][0] == '?' && "p?2"[1..][0] == '?';
  }

  /** A crawl of a seed whose links all have one normal form, and of a first such page without links. */
  lemma TwoPages(site: Site, s: string, p: string)
    requires site.norm(s) != site.norm(p) && LinksTo(site, site.host(s), s, p)
    requires forall href :: LinksTo(site, site.host(s), s, href) ==> site.norm(href) == site.norm(p)
    requires forall href :: !LinksTo(site, site.host(s), p, href)
    ensures Crawled(site, s, [Item(s, 0), Item(p, 1)], 3) && Complete(site, s, [Item(s, 0), Item(p, 1)], 3)
  {
    var visits := [Item(s, 0), Item(p, 1)];
    assert visits[0].url == s && visits[1].url == p;
    assert forall i, href :: 0 <= i < 2 && LinksTo(site, site.host(s), visits[i].url, href) ==>
      i == 0 && site.norm(href) == site.norm(p);
    assert Discovered(site, s, visits[..1], visits[1]) by {
      assert visits[..1][0] == Item(s, 0);
    }
    assert Complete(site, s, visits, 3) by {
      assert Seen(site, visits, site.norm(p));
    }
  }

  lemma Hidden(site: Site, s: string, p: string, twin: string, q: string)
    requires site.norm(q) != site.norm(s) && site.norm(q) != site.norm(p)
    requires LinksTo(site, site.host(s), s, twin) && LinksTo(site, site.host(s), twin, q)
    ensures LinkChain(site, s, [s, twin, q]) && !Seen(site, [Item(s, 0), Item(p, 1)], site.norm(q))
  {
    assert forall k :: 0 <= k < 2 ==> LinksTo(site, site.host(s), [s, twin, q][k], [s, twin, q][k + 1]);
  }

  /** The condition is needed: this crawl is finished, and yet a page two links from the seed was
   *  not requested. */
  lemma QueryHidesAPage()
    ensures var site, visits := QuerySite(), [Item("s", 0), Item("p?1", 1)];
            Crawled(site, "s", visits, 3) && Complete(site, "s", visits, 3) &&
            LinkChain(site, "s", ["s", "p?2", "q"]) && !Seen(site, visits, site.norm("q"))
  {
    QueryForms();
    var site := QuerySite();
    assert site.fetch("s").hrefs == ["p?1", "p?2"] && site.fetch("p?2").hrefs == ["q"] && site.fetch("p?1").hrefs == [];
    TwoPages(site, "s", "p?1");
    Hidden(site, "s", "p?1", "p?2", "q");
  }
}
