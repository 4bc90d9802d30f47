/**
 * The category scrape orchestrator of `KabumScrapper`.
 *
 * One browser is launched and sent to the store once; then, category by
 * category and on the same tab, a search is typed and submitted and the
 * resulting page is read, each record is stamped with its category and
 * appended to the growing list; the browser is closed after the loop. A
 * thrown step ends the whole run with no list and no `close`.
 *
 * The run is specified by the folds `FirstFold` and `PageFold`, which step
 * through the categories exactly as the loops do; the lemmas then state
 * what those folds compute in terms of `Trail`, the pages the successive
 * searches land on.
 */
module Kabum {
  import opened Wrappers
  import opened Product
  import opened Browser

  const StoreUrl := "https://www.kabum.com.br"

  /** One search interaction from page `v`: type `term`, press Enter, wait for the navigation. */
  function Search(site: Site, v: PageView, term: string): Result<PageView, Error> {
    var typed := Typed(v, term);
    if typed.None? then Failure(NoElement(SearchInputSelector)) else Submitted(site, typed.value)
  }

  /** What the first-mode evaluation of page `v` yields. */
  function FirstProduct(v: PageView): Result<ProductRecord, Error> {
    match ExtractFirst(v.first)
    case Success(p) => Success(p)
    case Failure(selector) => Failure(EvaluationFailed(selector))
  }

  /** `productList || []`: the list-mode records of page `v`, none when the evaluation yields null. */
  function Listed(v: PageView): seq<ProductRecord> {
    match v.cards
    case None => []
    case Some(cards) => ExtractAll(cards)
  }

  /** Every record of `ps`, in order, with its category set to `category`. */
  function Tag(ps: seq<ProductRecord>, category: string): seq<ProductRecord> {
    seq(|ps|, i requires 0 <= i < |ps| => ps[i].(category := Some(category)))
  }

  /** The loop of `scrapFirst` from page `v` with `acc` already collected. */
  function FirstFold(site: Site, v: PageView, acc: seq<ProductRecord>, cats: seq<string>): Result<seq<ProductRecord>, Error>
    decreases |cats|
  {
    if cats == [] then Success(acc)
    else
      match Search(site, v, cats[0])
      case Failure(e) => Failure(e)
      case Success(next) =>
        match FirstProduct(next)
        case Failure(e) => Failure(e)
        case Success(p) => FirstFold(site, next, acc + [p.(category := Some(cats[0]))], cats[1..])
  }

  /** The loop of `scrapPage` from page `v` with `acc` already collected. */
  function PageFold(site: Site, v: PageView, acc: seq<ProductRecord>, cats: seq<string>): Result<seq<ProductRecord>, Error>
    decreases |cats|
  {
    if cats == [] then Success(acc)
    else
      match Search(site, v, cats[0])
      case Failure(e) => Failure(e)
      case Success(next) => PageFold(site, next, acc + Tag(Listed(next), cats[0]), cats[1..])
  }

  /** `await browser.close()` after a loop that ended with `loop`: a rejected close discards the list. */
  function ThenClose(site: Site, loop: Result<seq<ProductRecord>, Error>): Result<seq<ProductRecord>, Error> {
    if loop.Success? && !site.canClose then Failure(CloseFailed) else loop
  }

  /** One turn of the `scrapPage` loop, at category `i`, after its search succeeded. */
  lemma PageFoldStep(site: Site, v: PageView, acc: seq<ProductRecord>, cats: seq<string>, i: nat)
    requires i < |cats| && Search(site, v, cats[i]).Success?
    ensures var next := Search(site, v, cats[i]).value;
      PageFold(site, v, acc, cats[i..]) == PageFold(site, next, acc + Tag(Listed(next), cats[i]), cats[i + 1..])
  {
    assert cats[i..][0] == cats[i] && cats[i..][1..] == cats[i + 1..];
  }

  /** What `scrapFirst(cats)` returns or throws: launch, go to `url`, the loop, then close. */
  function ScrapFirstRun(site: Site, url: string, cats: seq<string>): Result<seq<ProductRecord>, Error> {
    if !site.canLaunch then Failure(LaunchFailed)
    else if url !in site.pages then Failure(GotoFailed(url))
    else ThenClose(site, FirstFold(site, site.pages[url], [], cats))
  }

  /** What `scrapPage(cats)` returns or throws: launch, go to `url`, the loop, then close. */
  function ScrapPageRun(site: Site, url: string, cats: seq<string>): Result<seq<ProductRecord>, Error> {
    if !site.canLaunch then Failure(LaunchFailed)
    else if url !in site.pages then Failure(GotoFailed(url))
    else ThenClose(site, PageFold(site, site.pages[url], [], cats))
  }

  /**
   * The pages the successive searches for `cats` land on when each search
   * is typed into the page the previous one left behind, starting at `v`;
   * `None` when one of those searches throws.
   */
  function Trail(site: Site, v: PageView, cats: seq<string>): (t: Option<seq<PageView>>)
    ensures t.Some? ==> |t.value| == |cats|
    decreases |cats|
  {
    if cats == [] then Some([])
    else
      match Search(site, v, cats[0])
      case Failure(_) => None
      case Success(next) =>
        match Trail(site, next, cats[1..])
        case None => None
        case Some(rest) => Some([next] + rest)
  }

  /** Block i: the records of results page `t[i]`, stamped with `cats[i]`. */
  function Blocks(t: seq<PageView>, cats: seq<string>): seq<seq<ProductRecord>>
    requires |t| == |cats|
  {
    seq(|cats|, i requires 0 <= i < |cats| => Tag(Listed(t[i]), cats[i]))
  }

  function Flatten(bs: seq<seq<ProductRecord>>): seq<ProductRecord> {
    if bs == [] then [] else bs[0] + Flatten(bs[1..])
  }

  /** The number of records the results pages `t` list. */
  function TotalListed(t: seq<PageView>): nat {
    if t == [] then 0 else |Listed(t[0])| + TotalListed(t[1..])
  }

  /** The first-mode records of results pages `t`, record i stamped with `cats[i]`. */
  function FirstRecords(t: seq<PageView>, cats: seq<string>): seq<ProductRecord>
    requires |t| == |cats|
  {
    seq(|cats|, i requires 0 <= i < |cats| => ExtractCard(t[i].first).(category := Some(cats[i])))
  }

  /** Every results page of `t` has a title node and a price node. */
  predicate AllRequired(t: seq<PageView>) {
    forall i :: 0 <= i < |t| ==> t[i].first.title.Some? && t[i].first.price.Some?
  }

  /**
   * List mode: the loop succeeds exactly when every search succeeds, and
   * then appends to `acc` the concatenation, in category order, of each
   * results page's records in page order, each stamped with its category.
   */
  /** The blocks of a trail starting at `next` are `next`'s block followed by the rest. */
  lemma FlattenBlocksCons(next: PageView, rest: seq<PageView>, cats: seq<string>)
    requires |cats| == |rest| + 1
    ensures Flatten(Blocks([next] + rest, cats))
         == Tag(Listed(next), cats[0]) + Flatten(Blocks(rest, cats[1..]))
  {
    assert Blocks([next] + rest, cats)[1..] == Blocks(rest, cats[1..]);
  }

  lemma {:induction false} PageFoldConcat(site: Site, v: PageView, acc: seq<ProductRecord>, cats: seq<string>)
    ensures PageFold(site, v, acc, cats).Success? <==> Trail(site, v, cats).Some?
    ensures Trail(site, v, cats).Some? ==>
      PageFold(site, v, acc, cats).value == acc + Flatten(Blocks(Trail(site, v, cats).value, cats))
    decreases |cats|
  {
    if cats != [] {
      var step := Search(site, v, cats[0]);
      if step.Success? {
        var next := step.value;
        var block := Tag(Listed(next), cats[0]);
        assert PageFold(site, v, acc, cats) == PageFold(site, next, acc + block, cats[1..]);
        var tail := Trail(site, next, cats[1..]);
        assert Trail(site, v, cats) == if tail.None? then None else Some([next] + tail.value);
        PageFoldConcat(site, next, acc + block, cats[1..]);
        if tail.Some? {
          FlattenBlocksCons(next, tail.value, cats);
        }
      }
    }
  }

  /** Every record in the concatenated blocks carries one of the categories. */
  lemma {:induction false} BlocksTagged(t: seq<PageView>, cats: seq<string>)
    requires |t| == |cats|
    ensures forall p :: p in Flatten(Blocks(t, cats)) ==> p.category.Some? && p.category.value in cats
    decreases |cats|
  {
    if cats != [] {
      BlocksTagged(t[1..], cats[1..]);
      assert Blocks(t, cats) == [Blocks(t, cats)[0]] + Blocks(t[1..], cats[1..]);
      assert Flatten(Blocks(t, cats)) == Tag(Listed(t[0]), cats[0]) + Flatten(Blocks(t[1..], cats[1..]));
    }
  }

  /** The concatenated blocks hold exactly as many records as the results pages list. */
  lemma {:induction false} BlocksLength(t: seq<PageView>, cats: seq<string>)
    requires |t| == |cats|
    ensures |Flatten(Blocks(t, cats))| == TotalListed(t)
    decreases |cats|
  {
    if cats != [] {
      BlocksLength(t[1..], cats[1..]);
      assert Blocks(t, cats) == [Blocks(t, cats)[0]] + Blocks(t[1..], cats[1..]);
      assert Flatten(Blocks(t, cats)) == Tag(Listed(t[0]), cats[0]) + Flatten(Blocks(t[1..], cats[1..]));
    }
  }

  /**
   * First mode: the loop succeeds exactly when every search succeeds and
   * every results page has a title and a price node; it then appends one
   * record per category, record i read from the i-th results page and
   * stamped with `cats[i]`.
   */
  lemma {:induction false} FirstFoldPerCategory(site: Site, v: PageView, acc: seq<ProductRecord>, cats: seq<string>)
    ensures FirstFold(site, v, acc, cats).Success? <==>
      Trail(site, v, cats).Some? && AllRequired(Trail(site, v, cats).value)
    ensures FirstFold(site, v, acc, cats).Success? ==>
      FirstFold(site, v, acc, cats).value == acc + FirstRecords(Trail(site, v, cats).value, cats)
    decreases |cats|
  {
    if cats != [] {
      match Search(site, v, cats[0])
      case Failure(_) =>
      case Success(next) =>
        var rest := Trail(site, next, cats[1..]);
        match FirstProduct(next)
        case Failure(_) =>
          if rest.Some? {
            assert ([next] + rest.value)[0] == next;
          }
        case Success(p) =>
          var record := p.(category := Some(cats[0]));
          FirstFoldPerCategory(site, next, acc + [record], cats[1..]);
          if rest.Some? {
            var t := [next] + rest.value;
            assert t[0] == next && next.first.title.Some? && next.first.price.Some?;
            assert AllRequired(t) <==> AllRequired(rest.value) by {
              forall i | 0 <= i < |rest.value| ensures t[i + 1] == rest.value[i] { }
            }
            assert FirstRecords(t, cats) == [record] + FirstRecords(rest.value, cats[1..]);
          }
    }
  }

  /** `scrapPage` returns the category blocks concatenated in input order, every record tagged. */
  lemma ScrapPageConcat(site: Site, url: string, cats: seq<string>)
    requires site.canLaunch && url in site.pages
    ensures ScrapPageRun(site, url, cats).Success? <==> Trail(site, site.pages[url], cats).Some? && site.canClose
    ensures ScrapPageRun(site, url, cats).Success? ==>
      var t := Trail(site, site.pages[url], cats).value;
      var r := ScrapPageRun(site, url, cats).value;
      r == Flatten(Blocks(t, cats)) && |r| == TotalListed(t) &&
      forall p :: p in r ==> p.category.Some? && p.category.value in cats
  {
    var home := site.pages[url];
    PageFoldConcat(site, home, [], cats);
    if Trail(site, home, cats).Some? {
      var t := Trail(site, home, cats).value;
      BlocksTagged(t, cats);
      BlocksLength(t, cats);
    }
  }

  /** `scrapFirst` yields exactly one record per category, record i tagged `cats[i]`. */
  lemma ScrapFirstOnePerCategory(site: Site, url: string, cats: seq<string>)
    requires site.canLaunch && url in site.pages
    ensures ScrapFirstRun(site, url, cats).Success? ==>
      var r := ScrapFirstRun(site, url, cats).value;
      |r| == |cats| && forall i :: 0 <= i < |cats| ==> r[i].category == Some(cats[i])
  {
    FirstFoldPerCategory(site, site.pages[url], [], cats);
  }

  /**
   * Three categories: "gpu" lists two cards, "mouse" lists none and the
   * evaluation for "ssd" yields null. The run yields the two "gpu" records
   * in page order and nothing for the other two.
   */
  lemma GpuMouseExample(card1: Nodes, card2: Nodes, first: Nodes)
    ensures
      var home := PageView(Some(""), first, Some([]));
      var gpu := PageView(Some(""), first, Some([card1, card2]));
      var mouse := PageView(Some(""), first, Some([]));
      var ssd := PageView(Some(""), first, None);
      var site := Site(true, true, map[StoreUrl := home], map["gpu" := gpu, "mouse" := mouse, "ssd" := ssd]);
      ScrapPageRun(site, StoreUrl, ["gpu", "mouse", "ssd"])
        == Success([ExtractCard(card1).(category := Some("gpu")), ExtractCard(card2).(category := Some("gpu"))])
  {
    var home := PageView(Some(""), first, Some([]));
    var gpu := PageView(Some(""), first, Some([card1, card2]));
    var mouse := PageView(Some(""), first, Some([]));
    var ssd := PageView(Some(""), first, None);
    var site := Site(true, true, map[StoreUrl := home], map["gpu" := gpu, "mouse" := mouse, "ssd" := ssd]);
    var cats := ["gpu", "mouse", "ssd"];
    assert "" + "gpu" == "gpu" && "" + "mouse" == "mouse" && "" + "ssd" == "ssd";
    assert ExtractAll([card1, card2]) == [ExtractCard(card1), ExtractCard(card2)];
    var gpuRecords := Tag(ExtractAll([card1, card2]), "gpu");
    assert gpuRecords == [ExtractCard(card1).(category := Some("gpu")), ExtractCard(card2).(category := Some("gpu"))];
    assert cats[0] == "gpu" && cats[1..] == ["mouse", "ssd"] && [] + gpuRecords == gpuRecords;
    assert ["mouse", "ssd"][1..] == ["ssd"];
    assert Search(site, home, "gpu") == Success(gpu);
    assert Search(site, gpu, "mouse") == Success(mouse);
    assert Search(site, mouse, "ssd") == Success(ssd);
    assert Listed(gpu) == ExtractAll([card1, card2]) && Listed(mouse) == [] && Listed(ssd) == [];
    assert Tag([], "mouse") == [] && Tag([], "ssd") == [] && gpuRecords + [] == gpuRecords;
    assert PageFold(site, home, [], cats) == PageFold(site, gpu, gpuRecords, ["mouse", "ssd"]);
    assert PageFold(site, gpu, gpuRecords, ["mouse", "ssd"]) == PageFold(site, mouse, gpuRecords, ["ssd"]);
    assert PageFold(site, mouse, gpuRecords, ["ssd"]) == PageFold(site, ssd, gpuRecords, []);
    assert ScrapPageRun(site, StoreUrl, cats) == ThenClose(site, PageFold(site, home, [], cats));
  }

  /**
   * The tab is not sent back to the store between categories: when the
   * page the first search lands on has no search input, the second search
   * throws and the whole batch fails, although the store page has one.
   */
  lemma NoSearchBoxOnResultsPage(first: Nodes, term: string, nextTerm: string)
    ensures
      var home := PageView(Some(""), first, Some([]));
      var results := PageView(None, first, Some([]));
      var site := Site(true, true, map[StoreUrl := home], map[term := results]);
      ScrapPageRun(site, StoreUrl, [term, nextTerm]) == Failure(NoElement(SearchInputSelector))
  {
    var home := PageView(Some(""), first, Some([]));
    var results := PageView(None, first, Some([]));
    var site := Site(true, true, map[StoreUrl := home], map[term := results]);
    var cats := [term, nextTerm];
    assert "" + term == term;
    assert cats[0] == term && cats[1..] == [nextTerm];
    assert Search(site, home, term) == Success(results);
    assert Search(site, results, nextTerm) == Failure(NoElement(SearchInputSelector));
    assert PageFold(site, home, [], cats) == PageFold(site, results, [] + Tag(Listed(results), term), [nextTerm]);
  }

  /**
   * The inner loop of `scrapPage`: each record of `list`, in order, gets
   * `category` stamped on it and is pushed onto `products`.
   */
  method PushTagged(products: seq<ProductRecord>, list: seq<ProductRecord>, category: string)
    returns (pushed: seq<ProductRecord>)
    ensures pushed == products + Tag(list, category)
  {
    pushed := products;
    for j := 0 to |list|
      invariant pushed == products + Tag(list[..j], category)
    {
      assert Tag(list[..j + 1], category) == Tag(list[..j], category) + [list[j].(category := Some(category))];
      pushed := pushed + [list[j].(category := Some(category))];
    }
    assert list[..|list|] == list;
  }

  class KabumScrapper {
    const storeUrl: string

    constructor (storeUrl: string := StoreUrl)
      ensures this.storeUrl == storeUrl
    {
      this.storeUrl := storeUrl;
    }

    /** Type, Enter, wait; then read one product from the first match of each selector. */
    method SearchFirstCategoryProduct(page: Puppeteer, category: string) returns (r: Result<ProductRecord, Error>)
      modifies page
      ensures page.searches == old(page.searches) + 1
      ensures page.launches == old(page.launches) && page.gotos == old(page.gotos) && page.closes == old(page.closes)
      ensures match Search(page.site, old(page.view), category)
        case Failure(e) => r == Failure(e)
        case Success(next) => page.view == next && r == FirstProduct(next)
    {
      var typed := page.TypeSearch(category);
      if typed.Fail? {
        return Failure(typed.error);
      }
      var navigated := page.SubmitAndWait();
      if navigated.Fail? {
        return Failure(navigated.error);
      }
      r := page.EvaluateFirst();
    }

    /** Type, Enter, wait; then read every product card of the results page. */
    method SearchAllCategoryProducts(page: Puppeteer, category: string) returns (r: Result<Option<seq<ProductRecord>>, Error>)
      modifies page
      ensures page.searches == old(page.searches) + 1
      ensures page.launches == old(page.launches) && page.gotos == old(page.gotos) && page.closes == old(page.closes)
      ensures Search(page.site, old(page.view), category).Failure? ==>
        r == Failure(Search(page.site, old(page.view), category).error)
      ensures Search(page.site, old(page.view), category).Success? ==>
        page.view == Search(page.site, old(page.view), category).value && r.Success? &&
        (r.value.None? <==> page.view.cards.None?) &&
        (r.value.Some? ==> r.value.value == Listed(page.view))
    {
      var typed := page.TypeSearch(category);
      if typed.Fail? {
        return Failure(typed.error);
      }
      var navigated := page.SubmitAndWait();
      if navigated.Fail? {
        return Failure(navigated.error);
      }
      var products := page.EvaluateAll();
      if products.Some? {
        assert products.value == ExtractAll(page.view.cards.value);
      }
      r := Success(products);
    }

    /** `scrapFirst`: one record per category, or the first thrown error. */
    method ScrapFirst(browser: Puppeteer, categories: seq<string>) returns (r: Result<seq<ProductRecord>, Error>)
      modifies browser
      ensures r == ScrapFirstRun(browser.site, storeUrl, categories)
      ensures browser.launches == old(browser.launches) + 1
      ensures browser.gotos == old(browser.gotos) + (if browser.site.canLaunch then 1 else 0)
      ensures browser.searches <= old(browser.searches) + |categories|
      ensures r.Success? || r == Failure(CloseFailed) ==>
        browser.searches == old(browser.searches) + |categories| && browser.closes == old(browser.closes) + 1
      ensures r.Failure? && r != Failure(CloseFailed) ==> browser.closes == old(browser.closes)
    {
      var launched := browser.Launch();
      if launched.Fail? {
        return Failure(launched.error);
      }
      var loaded := browser.Goto(storeUrl);
      if loaded.Fail? {
        return Failure(loaded.error);
      }
      ghost var home := browser.view;
      var products: seq<ProductRecord> := [];
      for i := 0 to |categories|
        invariant FirstFold(browser.site, home, [], categories)
               == FirstFold(browser.site, browser.view, products, categories[i..])
        invariant browser.launches == old(browser.launches) + 1
        invariant browser.gotos == old(browser.gotos) + 1
        invariant browser.searches == old(browser.searches) + i
        invariant browser.closes == old(browser.closes)
      {
        assert categories[i..][0] == categories[i] && categories[i..][1..] == categories[i + 1..];
        var product := SearchFirstCategoryProduct(browser, categories[i]);
        if product.Failure? {
          return Failure(product.error);
        }
        products := products + [product.value.(category := Some(categories[i]))];
      }
      var closed := browser.Close();
      if closed.Fail? {
        return Failure(closed.error);
      }
      r := Success(products);
    }

    /** `scrapPage`: every card of every category, or the first thrown error. */
    method ScrapPage(browser: Puppeteer, categories: seq<string>) returns (r: Result<seq<ProductRecord>, Error>)
      modifies browser
      ensures r == ScrapPageRun(browser.site, storeUrl, categories)
      ensures browser.launches == old(browser.launches) + 1
      ensures browser.gotos == old(browser.gotos) + (if browser.site.canLaunch then 1 else 0)
      ensures browser.searches <= old(browser.searches) + |categories|
      ensures r.Success? || r == Failure(CloseFailed) ==>
        browser.searches == old(browser.searches) + |categories| && browser.closes == old(browser.closes) + 1
      ensures r.Failure? && r != Failure(CloseFailed) ==> browser.closes == old(browser.closes)
    {
      var launched := browser.Launch();
      if launched.Fail? {
        return Failure(launched.error);
      }
      var loaded := browser.Goto(storeUrl);
      if loaded.Fail? {
        return Failure(loaded.error);
      }
      ghost var home := browser.view;
      var products: seq<ProductRecord> := [];
      for i := 0 to |categories|
        invariant PageFold(browser.site, home, [], categories)
               == PageFold(browser.site, browser.view, products, categories[i..])
        invariant browser.launches == old(browser.launches) + 1
        invariant browser.gotos == old(browser.gotos) + 1
        invariant browser.searches == old(browser.searches) + i
        invariant browser.closes == old(browser.closes)
      {
        ghost var at := browser.view;
        var productList := SearchAllCategoryProducts(browser, categories[i]);
        if productList.Failure? {
          return Failure(productList.error);
        }
        PageFoldStep(browser.site, at, products, categories, i);
        var list := if productList.value.Some? then productList.value.value else [];
        assert list == Listed(browser.view);
        products := PushTagged(products, list, categories[i]);
      }
      var closed := browser.Close();
      if closed.Fail? {
        return Failure(closed.error);
      }
      r := Success(products);
    }
  }
}
