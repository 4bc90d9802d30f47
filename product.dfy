/**
 * Product records and the two field-extraction policies of the Kabum scraper.
 *
 * The DOM is reduced to what each of the four field selectors finds: the text
 * or attribute of the node when it exists, and nothing when it does not.
 */
module Product {
  import opened Wrappers

  const TitleSelector := "h2 > span.nameCard"
  const PriceSelector := "div > span.priceCard"
  const ImageSelector := "a > img.imageCard"
  const LinkSelector := "div > a.productLink"
  const CardSelector := "main > div.productCard"

  /**
   * What the field selectors find: `title` and `price` are the nodes'
   * `textContent`, `image` the image's `src`, `link` the anchor's `href`;
   * `None` when the selector matches no node.
   */
  datatype Nodes = Nodes(
    title: Option<string>,
    price: Option<string>,
    image: Option<string>,
    link: Option<string>)

  /** One scraped product; `category` is `undefined` until the orchestrator stamps it. */
  datatype ProductRecord = ProductRecord(
    title: Option<string>,
    price: Option<string>,
    picUrl: Option<string>,
    productUrl: Option<string>,
    category: Option<string>)

  /** The nodes a record was read from: every extracted field, category aside. */
  function Presence(p: ProductRecord): Nodes {
    Nodes(p.title, p.price, p.picUrl, p.productUrl)
  }

  /**
   * List-mode extraction of one card: every field read through optional
   * chaining, so each field is absent exactly when its node is missing and
   * the extraction itself never fails.
   */
  function ExtractCard(n: Nodes): (p: ProductRecord)
    ensures Presence(p) == n
    ensures p.category == None
  {
    ProductRecord(n.title, n.price, n.image, n.link, None)
  }

  /**
   * First-mode extraction: title and price are dereferenced without a guard,
   * so a missing node makes the evaluation throw (title is read first);
   * image and link are guarded. The failure carries the selector of the
   * field whose node was missing, as this model's label for which read
   * threw. When it succeeds it agrees with the list policy.
   */
  function ExtractFirst(n: Nodes): (r: Result<ProductRecord, string>)
    ensures r.Success? <==> n.title.Some? && n.price.Some?
    ensures r.Success? ==> r.value == ExtractCard(n)
    ensures r.Failure? ==> r.error == (if n.title == None then TitleSelector else PriceSelector)
  {
    if n.title == None then Failure(TitleSelector)
    else if n.price == None then Failure(PriceSelector)
    else Success(ProductRecord(n.title, n.price, n.image, n.link, None))
  }

  /** `Array.from(cards, el => ...)`: one record per card, in page order. */
  function ExtractAll(cards: seq<Nodes>): (ps: seq<ProductRecord>)
    ensures |ps| == |cards|
    ensures forall i :: 0 <= i < |ps| ==> Presence(ps[i]) == cards[i] && ps[i].category == None
  {
    if cards == [] then [] else [ExtractCard(cards[0])] + ExtractAll(cards[1..])
  }
}
