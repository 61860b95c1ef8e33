/** `scrape_website` and the single-URL path: the outcome of scraping one URL
    and when it is displayed. */
module Scraper {
  import opened Wrappers
  import opened PyStr
  import opened PageReport

  /** The kinds of failure `scrape_website` catches, each of which ends in a
      message box and a `None` result. */
  datatype ErrorKind = HttpError | ConnectionError | Timeout | RequestError | Unexpected

  /** What fetching and parsing a URL gave: the page's extracted data, or a
      failure. */
  datatype Response = Fetched(page: Page) | Failed(kind: ErrorKind)

  /** `scrape_website(url)` given what the fetch gave: the report string on
      success and `None` on any caught failure. */
  function ScrapeWebsite(resp: Response): (r: Option<string>)
    ensures r.Some? <==> resp.Fetched?
    ensures resp.Fetched? ==> r.value == Render(resp.page)
    ensures r.Some? ==> Truthy(r)
  {
    match resp
    case Fetched(page) => Some(Report(page))
    case Failed(_) => None
  }

  /** `scrape_single_website`: the result is displayed only when it is truthy. */
  function Displayed(result: Option<string>): (shown: Option<string>)
    ensures shown.Some? <==> result.Some? && result.value != ""
    ensures shown.Some? ==> shown == result
  {
    if Truthy(result) then result else None
  }

  /** On the single-URL path every successful scrape is displayed, as its full
      rendering, and every failure displays nothing. */
  lemma SingleUrlDisplay(resp: Response)
    ensures Displayed(ScrapeWebsite(resp)) ==
      if resp.Fetched? then Some(Render(resp.page)) else None
  {
  }
}
