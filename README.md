# Kabum web-scraping demo: a Dafny model

This project models the two pieces of sequential logic in the Kabum
scraping demo:

- **`KabumScrapper`** (`app/services/Scrappers/kabum.ts`). It launches one
  browser and opens the store once. Then, for each category in input order
  and always on the same tab, it types the category into the search input,
  presses Enter, waits for the navigation and reads the products off the
  page. Every record read is stamped with its category and pushed onto one
  growing list. The browser is closed after the loop.
  - `scrapFirst` reads one product per category.
  - `scrapPage` reads every product card.
- **`Home`** (`pages/index.tsx`). The handlers of the category-list page
  form a state machine over four pieces of state:
  - the category list;
  - the last list searched;
  - the input text;
  - the state of the search request.
  The `disabled` flags of the buttons guard the transitions.

Puppeteer and the storefront are an oracle, `Browser.Site`. It says
whether a browser can be launched, what `goto` loads, and which page a
submitted search text leads to. A loaded page is a `Browser.PageView`. It
records three things:
- what the search input holds, if the page has one;
- what each field selector finds first in the document;
- what each product card holds, or `null` when the evaluation yields no array.

`Browser.Puppeteer` wraps that oracle. It keeps ghost counters of launches,
`goto`s, searches and `close`s.

Files:
- `wrappers.dfy`: Option, Result and Outcome.
- `product.dfy`: records and the two field-extraction policies.
- `browser.dfy`: the browser oracle.
- `kabum.dfy`: the orchestrator, its specification folds and the lemmas about them.
- `home.dfy`: the page state machine.

Two behaviours of the code shape the model:
- `scrapFirst` and `scrapPage` have no `try`/`finally`
  (`app/services/Scrappers/kabum.ts:59-69` and `:80-90`), so a run that
  throws after the launch never reaches `browser.close()`. A `close()` that
  itself rejects makes the whole run reject, and the collected list is lost.
- List mode reads all four fields through optional chaining
  (`app/services/Scrappers/kabum.ts:40-43`), so a card with no title or
  price node gives absent fields and the run does not fail. Only first mode
  dereferences the title and price nodes unguarded.

## Model

| member | source | states |
|---|---|---|
| Product.ExtractCard | app/services/Scrappers/kabum.ts:39-45 | list mode never fails: each of title, price, pic_url and product_url is absent exactly when its own node is missing, and category stays undefined |
| Product.ExtractFirst | app/services/Scrappers/kabum.ts:17-23 | first mode succeeds iff both the title and the price node exist; otherwise it throws at the title selector (checked first) or the price selector; on success it equals the list-mode record, so a missing image or link only makes pic_url/product_url absent |
| Product.ExtractAll | app/services/Scrappers/kabum.ts:37-46 | one record per card, in page order, each with the card's nodes and no category |
| Browser.Puppeteer.constructor | app/services/Scrappers/kabum.ts:1 | the browser oracle starts with all call counters at zero on a blank tab |
| Browser.Puppeteer.Launch | app/services/Scrappers/kabum.ts:52-53 | one launch is counted; the result is a fresh blank tab, or LaunchFailed when the browser cannot start |
| Browser.Puppeteer.Goto | app/services/Scrappers/kabum.ts:55 | one goto is counted; the tab shows the page at the URL, or GotoFailed when the URL does not load |
| Browser.Puppeteer.TypeSearch | app/services/Scrappers/kabum.ts:10 | one search is counted; the text is appended to the search input, or NoElement when the page has no search input |
| Browser.Puppeteer.SubmitAndWait | app/services/Scrappers/kabum.ts:12-15 | the tab moves to the results page for the text in the search input (`Submitted`), or NavigationTimeout, with the tab unchanged, when the page has no input or that text leads to no page |
| Browser.Puppeteer.EvaluateFirst | app/services/Scrappers/kabum.ts:17-23 | first-mode evaluation of the current page: the record, or EvaluationFailed naming the null title or price selector |
| Browser.Puppeteer.EvaluateAll | app/services/Scrappers/kabum.ts:37-46 | list-mode evaluation of the current page: null exactly when the page yields null, otherwise one record per card in page order |
| Browser.Puppeteer.Close | app/services/Scrappers/kabum.ts:65 | one close is counted, the tab and the other counters are unchanged; it resolves when the browser can be closed and rejects with CloseFailed otherwise |
| Kabum.KabumScrapper.constructor | app/services/Scrappers/kabum.ts:5 | the store URL is the argument, by default https://www.kabum.com.br |
| Kabum.KabumScrapper.SearchFirstCategoryProduct | app/services/Scrappers/kabum.ts:8-26 | exactly one search; it throws when the search throws, otherwise the tab is on the results page and the result is that page's first-mode record |
| Kabum.KabumScrapper.SearchAllCategoryProducts | app/services/Scrappers/kabum.ts:28-49 | exactly one search; it throws when the search throws, otherwise the tab is on the results page and the result is that page's card list, null exactly when the evaluation yields null |
| Kabum.KabumScrapper.ScrapFirst | app/services/Scrappers/kabum.ts:51-70 | the result equals the scrapFirst fold; exactly one launch, one goto after a successful launch, at most one search per category and exactly one per category when the loop completes; close runs exactly once when the loop completes and never after a throw; a rejected close gives Failure(CloseFailed) and no list |
| Kabum.KabumScrapper.ScrapPage | app/services/Scrappers/kabum.ts:72-91 | the result equals the scrapPage fold, with the same counter guarantees and the same CloseFailed path; the loop body pushes each results page's records, tagged, onto the growing list; an empty category list gives an empty result with one launch, one goto, no search and one close |
| Kabum.PushTagged | app/services/Scrappers/kabum.ts:82-85 | the inner loop leaves the earlier records in place and appends the page's records in order, each stamped with the category |
| Kabum.PageFoldStep | app/services/Scrappers/kabum.ts:80-85 | one iteration of the scrapPage loop: after a successful search the rest of the run continues from the results page with that page's tagged records appended |
| Kabum.PageFoldConcat | app/services/Scrappers/kabum.ts:78-86 | the scrapPage loop succeeds iff every search along the trail succeeds; it then appends the concatenation, in category order, of each results page's records, page order kept and each stamped with its category; a null list adds nothing |
| Kabum.BlocksTagged | app/services/Scrappers/kabum.ts:80-85 | every record in the concatenated output carries one of the input categories |
| Kabum.BlocksLength | app/services/Scrappers/kabum.ts:80-85 | the output length is the sum of the per-category card counts |
| Kabum.FirstFoldPerCategory | app/services/Scrappers/kabum.ts:57-63 | the scrapFirst loop succeeds iff every search succeeds and every results page has a title and a price node; it then appends one record per category, record i read from the i-th results page and tagged with category i |
| Kabum.ScrapPageConcat | app/services/Scrappers/kabum.ts:72-91 | once launch and goto succeed, scrapPage succeeds iff every search succeeds and the browser closes; its result is the tagged concatenation of the results pages' records, its length is their total, and every record carries an input category |
| Kabum.ScrapFirstOnePerCategory | app/services/Scrappers/kabum.ts:51-70 | a successful scrapFirst returns exactly one record per category, and record i is tagged categories[i] |
| Kabum.GpuMouseExample | app/services/Scrappers/kabum.ts:78-86 | with "gpu" listing two cards, "mouse" listing an empty array and "ssd" evaluating to null, the result is the two gpu records in page order, both tagged "gpu" |
| Kabum.NoSearchBoxOnResultsPage | app/services/Scrappers/kabum.ts:80-81 | the tab is not sent back to the store between categories: a results page without a search input makes the next search throw, and the whole batch fails |
| Home.Removed | pages/index.tsx:37-39 | deleting index target removes exactly that entry and keeps the rest in order; an out-of-range index changes nothing |
| Home.RemovedUndoesAppend | pages/index.tsx:33-38 | deleting the index of the entry just appended restores the list |
| Home.HomePage.constructor | pages/index.tsx:17-25 | the page starts with empty lists, an empty input and an idle request |
| Home.HomePage.ChangeInput | pages/index.tsx:89-90 | typing replaces the input text and nothing else, keeping the page invariant |
| Home.HomePage.HandleAddCategorySubmit | pages/index.tsx:27-35 | an empty input changes nothing; a non-empty one is appended at the end (duplicates allowed), earlier entries are unchanged, and the input becomes "" |
| Home.HomePage.HandleDelCategory | pages/index.tsx:37-39 | the category list becomes Removed(categories, target); nothing else changes |
| Home.HomePage.HandleProductSearch | pages/index.tsx:41-52 | if lastSearch equals categories, no request is sent and nothing changes; otherwise exactly one request with the current categories; lastSearch becomes categories only when the reply succeeds, and a rejected request leaves it unchanged; results shown always belong to lastSearch |
| Home.HomePage.HandleProductClear | pages/index.tsx:54-60 | categories and lastSearch become empty and the request returns to idle; the input text is kept |
| Home.HomePage.ClickSearch | pages/index.tsx:145-152 | search is enabled only when categories is non-empty, so every request sent carries at least one category; after a sent request, a reply sets lastSearch to the categories searched and shows that data, and a rejection keeps lastSearch and marks the request failed |
| Home.HomePage.ClickSearchTwice | pages/index.tsx:44-51 | clicking search twice with no edit in between sends at most one request: a second click after a successful search is a no-op, and a disabled first click sends nothing at all |
| Home.HomePage.ClickClear | pages/index.tsx:154-164 | clear is disabled only when categories is empty and no result data exists |
| Home.HomePage.ClickExport | pages/index.tsx:166-173 | export is enabled only when result data exists |

## Left out

- Puppeteer itself: launch, newPage, goto, type, press, waitForNavigation, evaluate and close are foreign browser I/O. The model reduces them to the `Site` oracle, which also says whether launch and close succeed, and ghost call counters.
- CSS-selector matching and the DOM: the model keeps only which nodes each field selector finds, and their text or attribute.
- Browser.Puppeteer.TypeSearch: it takes no selector, since the scraper only ever types into `input#input-busca`.
- Browser.Puppeteer.SubmitAndWait: `page.$` then `press("Enter")` then `waitForNavigation()` is one step. Navigation timing and the 30-second default wait are not modelled: a search text that leads to no page is a timeout error.
- Stamping `category` in place: the extracted records are fresh objects that nothing else references, so stamping a copy (`p.(category := …)`) has the same effect.
- app/api/products/kabum/route.ts: HTTP glue, plus a catch that logs the error and returns an empty response.
- pages/_app.tsx: a provider wrapper with no logic.
- JSX rendering, styling, axios and react-query internals. `lodash.isEqual` on two string arrays is plain sequence equality.
- The CSV export handler: it only logs. Only the guard on its button is modelled.
- Console logging in `handleProductSearch`.
- Async scheduling: each handler runs as one atomic step. React-query's transient loading state is not modelled, and no other handler can run while a request is awaited.
- Home.HomePage.HandleProductSearch: the reply is a parameter (`None` for a rejected request). The request's payload and the server's behaviour are not modelled.
