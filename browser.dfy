/**
 * The browser engine and the storefront behind it, as the scraper sees them.
 *
 * A loaded document is reduced to a `PageView`; the storefront is a `Site`
 * oracle that says whether a browser can be launched, which URLs load and
 * which page a submitted search leads to. The ghost counters record how many
 * times the scraper launched, navigated, searched and closed.
 */
module Browser {
  import opened Wrappers
  import opened Product

  const SearchInputSelector := "input#input-busca"

  /** The errors an awaited browser step can throw. */
  datatype Error =
    | LaunchFailed                    // puppeteer.launch() rejects
    | GotoFailed(url: string)         // page.goto(url) rejects
    | NoElement(selector: string)     // page.type finds no element for the selector
    | NavigationTimeout               // page.waitForNavigation() sees no navigation
    | EvaluationFailed(selector: string) // page.evaluate throws reading a null node
    | CloseFailed                     // browser.close() rejects

  /**
   * A loaded document: `searchBox` is the current value of the search input,
   * `None` when the page has no such input; `first` is what each field
   * selector finds first in the whole document; `cards` is what each card
   * under the results container holds, in page order, `None` when the
   * evaluation hands back `null` instead of an array.
   */
  datatype PageView = PageView(
    searchBox: Option<string>,
    first: Nodes,
    cards: Option<seq<Nodes>>)

  /** The page a new tab shows before any navigation. */
  const Blank := PageView(None, Nodes(None, None, None, None), Some([]))

  /**
   * The storefront oracle: whether the browser launches and closes cleanly,
   * `pages` maps a URL to what `goto` loads, `results` maps a submitted
   * search text to the page the submission navigates to; text not in
   * `results` triggers no navigation.
   */
  datatype Site = Site(
    canLaunch: bool,
    canClose: bool,
    pages: map<string, PageView>,
    results: map<string, PageView>)

  /** The view after typing `text` into the search input, if there is one. */
  function Typed(v: PageView, text: string): Option<PageView> {
    match v.searchBox
    case None => None
    case Some(value) => Some(v.(searchBox := Some(value + text)))
  }

  /**
   * Pressing Enter in the search input of page `v` and waiting: the page
   * the submitted text leads to, or a timeout when nothing navigates.
   */
  function Submitted(site: Site, v: PageView): Result<PageView, Error> {
    match v.searchBox
    case Some(text) =>
      if text in site.results then Success(site.results[text]) else Failure(NavigationTimeout)
    case None => Failure(NavigationTimeout)
  }

  /** Puppeteer with one browser and its single tab. */
  class Puppeteer {
    const site: Site
    var view: PageView
    ghost var launches: nat
    ghost var gotos: nat
    ghost var searches: nat
    ghost var closes: nat

    constructor (site: Site)
      ensures this.site == site && view == Blank
      ensures launches == 0 && gotos == 0 && searches == 0 && closes == 0
    {
      this.site := site;
      view := Blank;
      launches, gotos, searches, closes := 0, 0, 0, 0;
    }

    /** `puppeteer.launch()` then `browser.newPage()`: a fresh browser on a blank tab. */
    method Launch() returns (r: Outcome<Error>)
      modifies this
      ensures launches == old(launches) + 1
      ensures gotos == old(gotos) && searches == old(searches) && closes == old(closes)
      ensures site.canLaunch ==> r == Pass && view == Blank
      ensures !site.canLaunch ==> r == Fail(LaunchFailed) && view == old(view)
    {
      launches := launches + 1;
      if site.canLaunch {
        view := Blank;
        r := Pass;
      } else {
        r := Fail(LaunchFailed);
      }
    }

    /** `page.goto(url)`. */
    method Goto(url: string) returns (r: Outcome<Error>)
      modifies this
      ensures gotos == old(gotos) + 1
      ensures launches == old(launches) && searches == old(searches) && closes == old(closes)
      ensures url in site.pages ==> r == Pass && view == site.pages[url]
      ensures url !in site.pages ==> r == Fail(GotoFailed(url)) && view == old(view)
    {
      gotos := gotos + 1;
      if url in site.pages {
        view := site.pages[url];
        r := Pass;
      } else {
        r := Fail(GotoFailed(url));
      }
    }

    /** `page.type("input#input-busca", text)`: appends `text` to the search input. */
    method TypeSearch(text: string) returns (r: Outcome<Error>)
      modifies this
      ensures searches == old(searches) + 1
      ensures launches == old(launches) && gotos == old(gotos) && closes == old(closes)
      ensures Typed(old(view), text).Some? ==> r == Pass && view == Typed(old(view), text).value
      ensures Typed(old(view), text).None? ==> r == Fail(NoElement(SearchInputSelector)) && view == old(view)
    {
      searches := searches + 1;
      match Typed(view, text)
      case Some(v) =>
        view := v;
        r := Pass;
      case None =>
        r := Fail(NoElement(SearchInputSelector));
    }

    /**
     * `(await page.$("input#input-busca"))?.press("Enter")` then
     * `page.waitForNavigation()`: the submitted text leads to its results
     * page, or no navigation happens and the wait times out.
     */
    method SubmitAndWait() returns (r: Outcome<Error>)
      modifies this
      ensures launches == old(launches) && gotos == old(gotos)
      ensures searches == old(searches) && closes == old(closes)
      ensures Submitted(site, old(view)).Success? ==> r == Pass && view == Submitted(site, old(view)).value
      ensures Submitted(site, old(view)).Failure? ==> r == Fail(NavigationTimeout) && view == old(view)
    {
      match Submitted(site, view)
      case Success(next) =>
        view := next;
        r := Pass;
      case Failure(_) =>
        r := Fail(NavigationTimeout);
    }

    /** The first-mode `page.evaluate`: reads the first match of each field selector. */
    method EvaluateFirst() returns (r: Result<ProductRecord, Error>)
      ensures view.first.title.Some? && view.first.price.Some? ==> r == Success(ExtractCard(view.first))
      ensures view.first.title.None? ==> r == Failure(EvaluationFailed(TitleSelector))
      ensures view.first.title.Some? && view.first.price.None? ==> r == Failure(EvaluationFailed(PriceSelector))
    {
      match ExtractFirst(view.first)
      case Success(p) => r := Success(p);
      case Failure(selector) => r := Failure(EvaluationFailed(selector));
    }

    /** The list-mode `page.evaluate`: one record per card, in page order. */
    method EvaluateAll() returns (r: Option<seq<ProductRecord>>)
      ensures r.None? <==> view.cards.None?
      ensures r.Some? ==> |r.value| == |view.cards.value|
      ensures r.Some? ==> forall i :: 0 <= i < |r.value| ==>
        Presence(r.value[i]) == view.cards.value[i] && r.value[i].category == None
    {
      match view.cards
      case None => r := None;
      case Some(cards) => r := Some(ExtractAll(cards));
    }

    /** `browser.close()`: counted whether or not it rejects. */
    method Close() returns (r: Outcome<Error>)
      modifies this
      ensures closes == old(closes) + 1
      ensures launches == old(launches) && gotos == old(gotos) && searches == old(searches)
      ensures view == old(view)
      ensures r == if site.canClose then Pass else Fail(CloseFailed)
    {
      closes := closes + 1;
      r := if site.canClose then Pass else Fail(CloseFailed);
    }
  }
}
