/** The scraping endpoint (`api/scrape-tiktok.ts`): request guards, a
    headless-browser session whose page extraction is outside the model
    (what it found is a parameter), the assembly of the product with
    fallbacks, and the fallback answer when any browser step throws. */
module ScrapeTiktokApi {
  import opened Wrappers
  import opened Text
  import opened ProductPages

  /** What the in-page extraction found. Text fields use "" for `null`;
      a number is `None` for `null`, and `Some(0.0)` is falsy as well. */
  datatype Scraped = Scraped(title: string, price: Option<real>, imageUrl: string, seller: string, rating: Option<real>)

  /** JavaScript truthiness of a number field. */
  predicate Given(x: Option<real>) {
    x.Some? && x.value != 0.0
  }

  /** How the browser session went: launching threw, a page step threw
      after the launch, closing the browser threw, or the extraction
      returned and the browser closed. An `Error`'s message, or `None`
      for a thrown value that is not an `Error`. */
  datatype Session =
    | LaunchThrows(message: Option<string>)
    | PageThrows(message: Option<string>)
    | CloseThrows(message: Option<string>)
    | Extracted(data: Scraped)

  /** A browser launch, and a call to close it. */
  datatype BrowserEvent = Launched | Closed

  /** The product and its markers: `_scraped`, `_fallback`, `_error`. */
  datatype ScrapeAnswer = ScrapeAnswer(product: ProductRecord, scraped: bool, fallback: bool, error: Option<string>)

  datatype ScrapeResponse = Preflight | MethodNotAllowed | NotTikTok | Answered(answer: ScrapeAnswer)

  function StatusCode(r: ScrapeResponse): int {
    match r
    case Preflight => 200
    case MethodNotAllowed => 405
    case NotTikTok => 400
    case Answered(_) => 200
  }

  /** The product built from what the page yielded. */
  function Assemble(d: Scraped, productId: Option<string>, handle: Option<string>, now: nat): (a: ScrapeAnswer)
    ensures a.scraped && a.error.None?
    ensures a.fallback <==> d.title == "" || !Given(d.price)
    ensures a.product.id != "" && a.product.title != "" && a.product.seller != ""
    ensures productId.Some? && productId.value != "" ==> a.product.id == productId.value
    ensures d.title != "" ==> a.product.title == d.title
    ensures a.product.price == if Given(d.price) then d.price.value else 19.99
    ensures a.product.rating == if Given(d.rating) then d.rating.value else 4.5
    ensures d.imageUrl != "" ==> a.product.imageUrl == d.imageUrl
    ensures d.imageUrl == "" ==> StartsWith(a.product.imageUrl, PLACEHOLDER_BASE)
    ensures a.product.category == "TikTok Shop" && a.product.inventory == 100.0
  {
    var product := ProductRecord(
      OrElseOpt(productId, ClockId(now)),
      OrElse(d.title, "TikTok Product by @" + OrElseOpt(handle, "shop")),
      if Given(d.price) then d.price.value else 19.99,
      OrElse(d.imageUrl, PlaceholderImage(OrElseOpt(handle, "Product"))),
      OrElse(d.seller, OrElseOpt(handle, "TikTok Shop")),
      "TikTok Shop",
      if Given(d.rating) then d.rating.value else 4.5,
      100.0);
    ScrapeAnswer(product, true, d.title == "" || !Given(d.price), None)
  }

  /** The answer of the `catch` block. */
  function ErrorAnswer(productId: Option<string>, handle: Option<string>, now: nat, message: Option<string>): (a: ScrapeAnswer)
    ensures a.fallback && !a.scraped && a.error.Some?
    ensures a.product.price == 19.99 && a.product.rating == 4.5 && a.product.inventory == 100.0
    ensures a.product.id != "" && a.product.seller != ""
  {
    ScrapeAnswer(
      ProductRecord(OrElseOpt(productId, ClockId(now)), "TikTok Product", 19.99,
                    "https://placehold.co/400x400/1a1a2e/10b981?text=Product",
                    OrElseOpt(handle, "TikTok Shop"), "TikTok Shop", 4.5, 100.0),
      false, true, Some(message.GetOr("Scraping failed")))
  }

  /** The error a session reports, when it fails. */
  function SessionError(s: Session): Option<string>
    requires !s.Extracted?
  {
    match s
    case LaunchThrows(m) => m
    case PageThrows(m) => m
    case CloseThrows(m) => m
  }

  /** The `try`/`catch` around the browser session. Closing a browser a
      second time, in the `catch` block after a failed close, is taken to
      succeed. */
  method RunSession(session: Session, productId: Option<string>, handle: Option<string>, now: nat)
    returns (answer: ScrapeAnswer, events: seq<BrowserEvent>)
    ensures session.Extracted? ==> answer == Assemble(session.data, productId, handle, now)
    ensures !session.Extracted? ==> answer == ErrorAnswer(productId, handle, now, SessionError(session))
    ensures session.LaunchThrows? ==> events == []
    ensures session.PageThrows? || session.Extracted? ==> events == [Launched, Closed]
    ensures session.CloseThrows? ==> events == [Launched, Closed, Closed]
  {
    events := [];
    var browserOpen := false;
    // try
    var failure: Option<Option<string>> := None;
    if session.LaunchThrows? {
      failure := Some(session.message);
    } else {
      events := events + [Launched];
      browserOpen := true;
      if session.PageThrows? {
        failure := Some(session.message);
      } else {
        events := events + [Closed];
        if session.CloseThrows? {
          failure := Some(session.message);
        } else {
          browserOpen := false;
        }
      }
    }
    if failure.None? {
      return Assemble(session.data, productId, handle, now), events;
    }
    // catch
    if browserOpen {
      events := events + [Closed];
    }
    answer := ErrorAnswer(productId, handle, now, failure.value);
  }

  /** The handler. `url` is `req.body.url` when it is a string. */
  method HandleScrape(httpMethod: string, url: Option<string>, session: Session, now: nat)
    returns (resp: ScrapeResponse, events: seq<BrowserEvent>)
    ensures httpMethod == "OPTIONS" ==> resp == Preflight
    ensures httpMethod != "OPTIONS" && httpMethod != "POST" ==> resp == MethodNotAllowed
    ensures httpMethod == "POST" && (url.None? || !Contains(url.value, "tiktok.com")) ==> resp == NotTikTok
    ensures !resp.Answered? ==> events == []
    ensures resp.Answered? ==> httpMethod == "POST" && url.Some? && Contains(url.value, "tiktok.com")
    ensures resp.Answered? && session.Extracted? ==>
      resp.answer == Assemble(session.data, ProductIdInPath(url.value), SellerHandle(url.value), now)
    ensures resp.Answered? && !session.Extracted? ==>
      resp.answer == ErrorAnswer(ProductIdInPath(url.value), SellerHandle(url.value), now, SessionError(session))
    ensures session.LaunchThrows? ==> events == []
    ensures resp.Answered? && (session.PageThrows? || session.Extracted?) ==> events == [Launched, Closed]
    ensures resp.Answered? && session.CloseThrows? ==> events == [Launched, Closed, Closed]
  {
    if httpMethod == "OPTIONS" {
      return Preflight, [];
    }
    if httpMethod != "POST" {
      return MethodNotAllowed, [];
    }
    if url.None? || !Contains(url.value, "tiktok.com") {
      return NotTikTok, [];
    }
    var productId := ProductIdInPath(url.value);
    var handle := SellerHandle(url.value);
    var answer;
    answer, events := RunSession(session, productId, handle, now);
    resp := Answered(answer);
  }
}
