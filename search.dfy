/** Website discovery of src/services/search.ts: the DuckDuckGo query, the href filter and the
    first-match choice, with the browser reduced to its page count. */
module Search {
  import opened Wrappers
  import opened Strings
  import opened Lists
  import opened Errors
  import opened BrowserSession

  const NotInitializedMessage := "Browser not initialized"
  const QueryPrefix := "\""
  const QuerySuffix := "\" site:*.com.ar OR site:*.com"

  /** The search query for a company name. */
  function SearchQuery(companyName: string): (q: string)
    ensures |q| == |companyName| + |QueryPrefix| + |QuerySuffix|
    ensures StartsWith(q, QueryPrefix)
    ensures q[|QueryPrefix|..|QueryPrefix| + |companyName|] == companyName
    ensures q[|QueryPrefix| + |companyName|..] == QuerySuffix
  {
    var q := QueryPrefix + companyName + QuerySuffix;
    assert q[..|QueryPrefix|] == QueryPrefix;
    q
  }

  /** Different names give different queries: the name can be read back from the query. */
  lemma SearchQueryInjective(a: string, b: string)
    requires SearchQuery(a) == SearchQuery(b)
    ensures a == b
  {
    var qa := SearchQuery(a);
    assert |a| == |b|;
    assert a == qa[|QueryPrefix|..|QueryPrefix| + |a|];
  }

  /** The href filter: a `.com` address that is not DuckDuckGo's own, Facebook or Instagram. */
  predicate KeepHref(href: string) {
    && Contains(href, ".com")
    && !Contains(href, "duckduckgo")
    && !Contains(href, "facebook")
    && !Contains(href, "instagram")
  }

  /** `urls[0] || null` over the filtered hrefs: the first kept href in page order. */
  function FirstWebsite(hrefs: seq<string>): (r: Option<string>)
    ensures r.None? <==> forall i :: 0 <= i < |hrefs| ==> !KeepHref(hrefs[i])
    ensures r.Some? ==> r.value == hrefs[FindIndex(hrefs, KeepHref)] && KeepHref(r.value)
  {
    FilterHead(KeepHref, hrefs);
    var urls := Filter(KeepHref, hrefs);
    if |urls| > 0 then Some(urls[0]) else None
  }

  /** How `findCompanyWebsite` ends: `hrefsOf(query)` is how loading the results page for the
      query and reading its links ends, and `pageError` how opening the page ends. */
  function WebsiteResult(initialized: bool, companyName: string, pageError: Option<Thrown>,
                         hrefsOf: string -> Completion<seq<string>>): (r: Completion<Option<string>>)
    ensures !initialized ==> r == Threw(PlainError(NotInitializedMessage))
    ensures initialized && pageError.Some? ==> r == Threw(pageError.value)
    ensures initialized && pageError.None? ==>
      match hrefsOf(SearchQuery(companyName))
      case Threw(e) => r == Threw(e)
      case Returned(hrefs) => r == Returned(FirstWebsite(hrefs))
  {
    if !initialized then Threw(PlainError(NotInitializedMessage))
    else if pageError.Some? then Threw(pageError.value)
    else match hrefsOf(SearchQuery(companyName))
      case Threw(e) => Threw(e)
      case Returned(hrefs) => Returned(FirstWebsite(hrefs))
  }

  /** Before `initialize` no page is loaded: the result does not depend on the web. */
  lemma UninitializedMakesNoRequest(companyName: string, pageError: Option<Thrown>,
                                    hrefs1: string -> Completion<seq<string>>, hrefs2: string -> Completion<seq<string>>)
    ensures WebsiteResult(false, companyName, pageError, hrefs1) == WebsiteResult(false, companyName, pageError, hrefs2)
  {
  }

  /** A website that is found is never a social network or the search engine's own page. */
  lemma FoundWebsiteIsKept(companyName: string, pageError: Option<Thrown>, hrefsOf: string -> Completion<seq<string>>)
    requires WebsiteResult(true, companyName, pageError, hrefsOf).Returned?
    requires WebsiteResult(true, companyName, pageError, hrefsOf).value.Some?
    ensures var w := WebsiteResult(true, companyName, pageError, hrefsOf).value.value;
      Contains(w, ".com") && !Contains(w, "facebook") && !Contains(w, "instagram") && !Contains(w, "duckduckgo")
  {
  }

  class SearchService {
    var browser: Browser?

    constructor ()
      ensures browser == null
    {
      browser := null;
    }

    /** `initialize`: launches the headless browser. */
    method Initialize()
      modifies this
      ensures browser != null && fresh(browser) && browser.openPages == 0
    {
      browser := new Browser();
    }

    /** `findCompanyWebsite`: the page it opens is closed on every exit. */
    method FindCompanyWebsite(companyName: string, pageError: Option<Thrown>, hrefsOf: string -> Completion<seq<string>>)
      returns (r: Completion<Option<string>>)
      modifies browser
      ensures browser != null ==> browser.openPages == old(browser.openPages)
      ensures r == WebsiteResult(browser != null, companyName, pageError, hrefsOf)
    {
      if browser == null {
        return Threw(PlainError(NotInitializedMessage));
      }
      if pageError.Some? {
        return Threw(pageError.value);
      }
      browser.NewPage();
      var query := QueryPrefix + companyName + QuerySuffix;
      var loaded := hrefsOf(query);
      if loaded.Threw? {
        r := Threw(loaded.error);
      } else {
        var urls := Filter(KeepHref, loaded.value);
        r := Returned(if |urls| > 0 then Some(urls[0]) else None);
      }
      browser.ClosePage();
    }
  }
}
