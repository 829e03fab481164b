/**
 * `Main.fetchAllDevices`: walk a brand's paginated listing on gsmarena.com,
 * appending each page's model names to one accumulator and following the
 * last pagination link until there is none or it is the end-of-list sentinel.
 *
 * The network is an oracle from URL to page (None: the fetch threw). The Java
 * method recurses with no bound on the number of pages; here the caller
 * supplies a ghost bound under which the walk is known to stop.
 */
module Pagination {
  import opened Common

  const GSM_BASE_URL := "https://www.gsmarena.com/"
  /** The text of the disabled "next page" arrow: U+25BA. */
  const NEXT_ARROW := "\U{25BA}"

  /** The last `a` of `.nav-pages`: its `href` ("" when absent), its `title` if present, and its text. */
  datatype NavLink = NavLink(href: string, title: Option<string>, text: string)

  /** A listing page: the model names under `.makers ul li`, and the last pagination link, if any. */
  datatype ListingPage = ListingPage(modelNames: seq<string>, lastNavLink: Option<NavLink>)

  type Web = string -> Option<ListingPage>

  /** The end-of-list marker: `href` is "#", there is no `title` attribute, and the text is the arrow. */
  predicate IsSentinel(link: NavLink)
  {
    link.href == "#" && link.title.None? && link.text == NEXT_ARROW
  }

  /** The walk from `page` stops within `bound` further fetches. */
  ghost predicate Terminates(web: Web, page: ListingPage, bound: nat)
    decreases bound
  {
    match page.lastNavLink
    case None => true
    case Some(link) =>
      IsSentinel(link)
      || match web(GSM_BASE_URL + link.href)
         case None => true
         case Some(next) => bound > 0 && Terminates(web, next, bound - 1)
  }

  /**
   * Specification of `fetchAllDevices(page, acc)`: the list it returns, or
   * None when a fetch throws (the exception leaves the method).
   */
  ghost function Crawl(web: Web, page: ListingPage, acc: seq<string>, bound: nat): (r: Option<seq<string>>)
    requires Terminates(web, page, bound)
    ensures r.Some? ==> acc + page.modelNames <= r.value
    decreases bound
  {
    var acc' := acc + page.modelNames;
    match page.lastNavLink
    case None => Some(acc')
    case Some(link) =>
      if IsSentinel(link) then Some(acc')
      else
        match web(GSM_BASE_URL + link.href)
        case None => None
        case Some(next) =>
          var r := Crawl(web, next, acc', bound - 1);
          assert r.Some? ==> acc' <= acc' + next.modelNames <= r.value;
          r
  }

  /** Once the walk is known to stop, a larger bound does not change its result. */
  lemma {:induction false} CrawlBoundIrrelevant(web: Web, page: ListingPage, acc: seq<string>, bound: nat, bound': nat)
    requires Terminates(web, page, bound) && bound <= bound'
    ensures Terminates(web, page, bound')
    ensures Crawl(web, page, acc, bound) == Crawl(web, page, acc, bound')
    decreases bound
  {
    match page.lastNavLink
    case None =>
    case Some(link) =>
      if !IsSentinel(link) {
        match web(GSM_BASE_URL + link.href)
        case None =>
        case Some(next) =>
          CrawlBoundIrrelevant(web, next, acc + page.modelNames, bound - 1, bound' - 1);
      }
  }

  /** The model names of `pages`, page after page. */
  function AllModelNames(pages: seq<ListingPage>): seq<string>
  {
    if pages == [] then [] else pages[0].modelNames + AllModelNames(pages[1..])
  }

  /**
   * `pages` is a finite chain: each page but the last has a last link that is
   * not the sentinel and whose fetch gives the next page, and the last page
   * has no link or the sentinel.
   */
  ghost predicate IsChain(web: Web, pages: seq<ListingPage>)
    decreases |pages|
  {
    |pages| >= 1 &&
    var link := pages[0].lastNavLink;
    if |pages| == 1 then link.None? || IsSentinel(link.value)
    else
      && link.Some? && !IsSentinel(link.value)
      && web(GSM_BASE_URL + link.value.href) == Some(pages[1])
      && IsChain(web, pages[1..])
  }

  /**
   * On a finite chain the walk stops, and returns the incoming list followed
   * by the model names of every page of the chain in order, the last page's
   * included.
   */
  lemma {:induction false} CrawlChain(web: Web, pages: seq<ListingPage>, acc: seq<string>)
    requires IsChain(web, pages)
    ensures Terminates(web, pages[0], |pages| - 1)
    ensures Crawl(web, pages[0], acc, |pages| - 1) == Some(acc + AllModelNames(pages))
    decreases |pages|
  {
    if |pages| > 1 {
      CrawlChain(web, pages[1..], acc + pages[0].modelNames);
      assert acc + pages[0].modelNames + AllModelNames(pages[1..]) == acc + AllModelNames(pages);
    } else {
      assert pages[1..] == [];
      assert AllModelNames(pages) == pages[0].modelNames;
      assert acc + pages[0].modelNames + [] == acc + pages[0].modelNames;
    }
  }

  /** A page with no last link, or whose last link is the sentinel, ends the walk with its own names. */
  lemma LastPageEndsWalk(web: Web, page: ListingPage, acc: seq<string>, bound: nat)
    requires page.lastNavLink.None? || IsSentinel(page.lastNavLink.value)
    ensures Terminates(web, page, bound)
    ensures Crawl(web, page, acc, bound) == Some(acc + page.modelNames)
  {
  }

  /** A last link that differs from the sentinel in any one of its three parts is followed. */
  lemma NearSentinelIsFollowed(web: Web, page: ListingPage, acc: seq<string>, bound: nat)
    requires page.lastNavLink.Some?
    requires var link := page.lastNavLink.value;
             link.href != "#" || link.title.Some? || link.text != NEXT_ARROW
    requires Terminates(web, page, bound)
    ensures Crawl(web, page, acc, bound)
         == match web(GSM_BASE_URL + page.lastNavLink.value.href)
            case None => None
            case Some(next) => Crawl(web, next, acc + page.modelNames, bound - 1)
  {
  }

  /**
   * `fetchAllDevices(doc, mobileList)`: the recursion on the next page becomes
   * a loop; `bound` (ghost) is a number of further fetches within which the
   * walk is known to stop.
   */
  method FetchAllDevices(doc: ListingPage, mobileList: seq<string>, web: Web, ghost bound: nat)
    returns (r: Option<seq<string>>)
    requires Terminates(web, doc, bound)
    ensures r == Crawl(web, doc, mobileList, bound)
    ensures r.Some? ==> mobileList <= r.value
  {
    var page := doc;
    var list := mobileList;
    ghost var fuel := bound;
    while true
      invariant Terminates(web, page, fuel)
      invariant Crawl(web, doc, mobileList, bound) == Crawl(web, page, list, fuel)
      invariant mobileList <= list
      decreases fuel
    {
      ghost var before := list;
      for i := 0 to |page.modelNames|
        invariant list == before + page.modelNames[..i]
      {
        list := list + [page.modelNames[i]];
      }
      assert page.modelNames[..|page.modelNames|] == page.modelNames;
      if page.lastNavLink.None? {
        return Some(list);
      }
      var link := page.lastNavLink.value;
      if IsSentinel(link) {
        return Some(list);
      }
      var next := web(GSM_BASE_URL + link.href);
      if next.None? {
        // the IOException propagates out of the recursion, discarding the list
        return None;
      }
      page := next.value;
      fuel := fuel - 1;
    }
  }
}
