/** The product-verification endpoint (`api/verify-product.ts`): request
    guards, a fixed test catalogue, a generated product description that
    `ValidateProduct` repairs field by field, and a fallback product when
    anything in the generation path throws. The generation service is
    outside the model: its outcome is a parameter. */
module VerifyProductApi {
  import opened Wrappers
  import opened Text
  import opened ProductPages

  // ---------------------------------------------------------------- the url

  predicate IsAsciiLetter(c: char) {
    'A' <= c <= 'Z' || 'a' <= c <= 'z'
  }

  predicate IsSchemeChar(c: char) {
    IsAsciiLetter(c) || IsDigit(c) || c == '+' || c == '-' || c == '.'
  }

  /** `new URL(url)` succeeds: the url starts with a scheme (a letter, then
      letters, digits, `+`, `-` or `.`) followed by `:`. */
  predicate HasUrlScheme(url: string) {
    |url| >= 1 && IsAsciiLetter(url[0]) &&
    var n := RunFrom(url, 0, IsSchemeChar);
    n < |url| && url[n] == ':'
  }

  predicate NotHash(c: char) { c != '#' }
  predicate NotQuestion(c: char) { c != '?' }
  predicate NotAmp(c: char) { c != '&' }
  predicate NotEquals(c: char) { c != '=' }

  /** The query of a url: what follows the first `?` that comes before any
      `#`, up to that `#`. */
  function QueryOf(url: string): (q: string)
    ensures |q| <= |url|
    ensures forall k :: 0 <= k < |q| ==> q[k] != '#'
  {
    var beforeHash := url[..RunFrom(url, 0, NotHash)];
    var n := RunFrom(beforeHash, 0, NotQuestion);
    if n < |beforeHash| then beforeHash[n + 1..] else ""
  }

  /** `new URLSearchParams(query).get(name)`: the value of the first
      `&`-separated pair whose key (the text before its first `=`) is
      `name`. */
  function SearchParam(query: string, name: string): (r: Option<string>)
    ensures r.Some? ==> |r.value| <= |query|
    decreases |query|
  {
    var n := RunFrom(query, 0, NotAmp);
    var pair := query[..n];
    var e := RunFrom(pair, 0, NotEquals);
    var value := if e < |pair| then pair[e + 1..] else "";
    if pair[..e] == name then Some(value)
    else if n == |query| then None
    else SearchParam(query[n + 1..], name)
  }

  /** A run whose end is known is the run `RunFrom` measures. */
  lemma RunEndsAt(s: string, p: char -> bool, m: nat)
    requires m <= |s|
    requires forall k :: 0 <= k < m ==> p(s[k])
    requires m == |s| || !p(s[m])
    ensures RunFrom(s, 0, p) == m
  {
  }

  /** The first `name=value` pair answers the lookup, whatever follows. */
  lemma {:induction false} FirstPairWins(name: string, value: string, rest: string)
    requires forall k :: 0 <= k < |name| ==> name[k] != '&' && name[k] != '='
    requires forall k :: 0 <= k < |value| ==> value[k] != '&'
    requires rest == "" || rest[0] == '&'
    ensures SearchParam(name + "=" + value + rest, name) == Some(value)
  {
    var query := name + "=" + value + rest;
    var pair := name + "=" + value;
    RunEndsAt(query, NotAmp, |pair|);
    assert query[..|pair|] == pair;
    RunEndsAt(pair, NotEquals, |name|);
    assert pair[..|name|] == name;
    assert pair[|name| + 1..] == value;
  }

  // ---------------------------------------------------------------- extractProductId

  const INVALID_URL := "Invalid URL"

  /** `extractProductId(url)` as written: the `/product/<digits>` capture,
      else the non-empty `product_id` query value, else null; the `new URL`
      it reaches for the query throws when the url has no scheme. */
  function ExtractProductIdAsWritten(url: string): (r: Result<Option<string>, string>)
    ensures ProductIdInPath(url).Some? ==> r == Ok(ProductIdInPath(url))
    ensures r.Err? <==> ProductIdInPath(url).None? && !HasUrlScheme(url)
    ensures r.Ok? && r.value.Some? ==> r.value.value != ""
  {
    match ProductIdInPath(url)
    case Some(digits) => Ok(Some(digits))
    case None =>
      if !HasUrlScheme(url) then Err(INVALID_URL)
      else
        var fromQuery := SearchParam(QueryOf(url), "product_id");
        Ok(if fromQuery.Some? && fromQuery.value != "" then fromQuery else None)
  }

  /** A scheme-less address such as a user may paste: it passes the
      handler's `tiktok.com` guard and names no test product. */
  const SCHEMELESS_URL := "tiktok.com/@shop"

  lemma SchemelessUrlPassesGuards()
    ensures SCHEMELESS_URL != "" && Contains(SCHEMELESS_URL, "tiktok.com")
    ensures CatalogueMatch(SCHEMELESS_URL).None?
  {
    var url := SCHEMELESS_URL;
    assert OccursAt(url, "tiktok.com", 0);
    ContainsIff(url, "tiktok.com");
    forall i | 0 <= i < |TEST_PRODUCTS|
      ensures !Contains(url, TEST_PRODUCTS[i].0)
    {
      NoTestKeyIn(url, i);
    }
  }

  /** Every test key holds an `e`, and the address holds none. */
  lemma NoTestKeyIn(url: string, i: nat)
    requires url == SCHEMELESS_URL && i < |TEST_PRODUCTS|
    ensures !Contains(url, TEST_PRODUCTS[i].0)
  {
    var key := TEST_PRODUCTS[i].0;
    var e := if i == 2 then 2 else 1;
    assert key[e] == 'e';
    assert 'e' !in url;
    AbsentCharBlocks(url, key, e);
  }

  /** A text lacking one of the characters of `key` does not contain it. */
  lemma AbsentCharBlocks(s: string, key: string, e: nat)
    requires e < |key| && key[e] !in s
    ensures !Contains(s, key)
  {
    ContainsIff(s, key);
    forall j | 0 <= j <= |s|
      ensures !OccursAt(s, key, j)
    {
      if j + |key| <= |s| {
        assert s[j..j + |key|][e] == s[j + e];
      }
    }
  }

  /** On that address the extractor as written throws: it holds no
      `/product/<digits>`, so `new URL` is reached, and it has no scheme. */
  lemma SchemelessUrlThrows()
    ensures ExtractProductIdAsWritten(SCHEMELESS_URL) == Err(INVALID_URL)
  {
    SchemelessNamesNoProduct();
    SchemelessHasNoScheme();
  }

  lemma SchemelessNamesNoProduct()
    ensures ProductIdInPath(SCHEMELESS_URL).None?
  {
    var url := SCHEMELESS_URL;
    assert url[0] != '/' && url[1] != '/' && url[2] != '/' && url[3] != '/' &&
           url[4] != '/' && url[5] != '/' && url[6] != '/';
    forall k | 0 <= k < |url|
      ensures !ProductAt(url, k)
    {
      if k + 9 < |url| {
        assert url[k..k + 9][0] == url[k];
      }
    }
  }

  lemma SchemelessHasNoScheme()
    ensures !HasUrlScheme(SCHEMELESS_URL)
  {
    RunEndsAt(SCHEMELESS_URL, IsSchemeChar, 10);
  }

  /** `extractProductId` with the url parse guarded, as the handler's
      fallback path needs: a url that does not parse names no product. */
  function ExtractProductId(url: string): (r: Option<string>)
    ensures ExtractProductIdAsWritten(url).Ok? ==> r == ExtractProductIdAsWritten(url).value
    ensures ExtractProductIdAsWritten(url).Err? ==> r.None?
    ensures ProductIdInPath(url).Some? ==> r == ProductIdInPath(url)
    ensures r.Some? ==> r.value != ""
  {
    match ExtractProductIdAsWritten(url)
    case Ok(id) => id
    case Err(_) => None
  }

  /** The extractor as the handler consumes it: throwing, or not. */
  function CorrectedExtractor(url: string): (r: Result<Option<string>, string>)
    ensures r.Ok?
    ensures r.value == ExtractProductId(url)
  {
    Ok(ExtractProductId(url))
  }

  // ---------------------------------------------------------------- validateProduct

  /** The generated description before repair. String fields use "" for a
      missing or falsy value; a numeric field is `None` when `Number(..)`
      of it is `NaN`. */
  datatype RawProduct = RawProduct(
    id: string,
    title: string,
    price: Option<real>,
    imageUrl: string,
    seller: string,
    category: string,
    rating: Option<real>,
    inventory: Option<real>)

  /** What every product the endpoint answers with satisfies. */
  predicate WellFormed(p: ProductRecord) {
    p.id != "" && p.seller != "" && p.category != "" && p.imageUrl != "" &&
    p.price >= 0.0 && 0.0 < p.rating <= 5.0 && p.inventory > 0.0
  }

  /** The price rule: a positive number is kept; otherwise the first
      `$amount` of the title; otherwise 19.99. */
  function RepairedPrice(price: Option<real>, title: string): (r: real)
    ensures price.Some? && price.value > 0.0 ==> r == price.value
    ensures !(price.Some? && price.value > 0.0) && DollarAmount(title).Some? ==> r == DollarAmount(title).value
    ensures !(price.Some? && price.value > 0.0) && DollarAmount(title).None? ==> r == 19.99
    ensures r >= 0.0
  {
    if price.Some? && price.value > 0.0 then price.value
    else match DollarAmount(title)
      case Some(v) => v
      case None => 19.99
  }

  /** The placeholder captioned with the first twenty characters of the
      title, or with `Product` when there is no title. */
  function TitleImage(title: string): (r: string)
    ensures StartsWith(r, PLACEHOLDER_BASE) && r != ""
  {
    PlaceholderImage(Take(OrElse(title, "Product"), 20))
  }

  /** The first half of `validateProduct`: identifier, price and seller. */
  method RepairIdentity(raw: RawProduct, productId: Option<string>, handle: Option<string>, now: nat)
    returns (id: string, price: real, seller: string)
    ensures id != "" && seller != "" && price >= 0.0
    ensures raw.id != "" && raw.id != "unknown" ==> id == raw.id
    ensures (raw.id == "" || raw.id == "unknown") && productId.Some? && productId.value != "" ==>
      id == productId.value
    ensures raw.id == "" || raw.id == "unknown" ==> id == OrElseOpt(productId, ClockId(now))
    ensures price == RepairedPrice(raw.price, raw.title)
    ensures raw.seller != "" && raw.seller != "Unknown" ==> seller == raw.seller
    ensures raw.seller == "" || raw.seller == "Unknown" ==> seller == OrElseOpt(handle, "TikTok Shop Seller")
  {
    id := raw.id;
    if id == "" || id == "unknown" {
      id := OrElseOpt(productId, ClockId(now));
    }
    var amount := raw.price;
    if amount.None? || amount.value <= 0.0 {
      var fromTitle := DollarAmount(raw.title);
      if fromTitle.Some? {
        amount := fromTitle;
      } else {
        amount := Some(19.99);
      }
    }
    price := amount.value;
    seller := raw.seller;
    if seller == "" || seller == "Unknown" {
      seller := OrElseOpt(handle, "TikTok Shop Seller");
    }
  }

  /** The second half of `validateProduct`: image, category, rating and
      stock. */
  method RepairListing(raw: RawProduct) returns (imageUrl: string, category: string, rating: real, inventory: real)
    ensures imageUrl != "" && category != "" && 0.0 < rating <= 5.0 && inventory > 0.0
    ensures raw.imageUrl == "" || Contains(raw.imageUrl, "undefined") ==> imageUrl == TitleImage(raw.title)
    ensures raw.imageUrl != "" && !Contains(raw.imageUrl, "undefined") ==> imageUrl == raw.imageUrl
    ensures raw.category != "" ==> category == raw.category
    ensures raw.category == "" ==> category == "TikTok Shop"
    ensures raw.rating.Some? && 0.0 < raw.rating.value <= 5.0 ==> rating == raw.rating.value
    ensures !(raw.rating.Some? && 0.0 < raw.rating.value <= 5.0) ==> rating == 4.5
    ensures raw.inventory.Some? && raw.inventory.value > 0.0 ==> inventory == raw.inventory.value
    ensures !(raw.inventory.Some? && raw.inventory.value > 0.0) ==> inventory == 100.0
  {
    imageUrl := raw.imageUrl;
    if imageUrl == "" || Contains(imageUrl, "undefined") {
      imageUrl := TitleImage(raw.title);
    }
    category := raw.category;
    if category == "" {
      category := "TikTok Shop";
    }
    var r := raw.rating;
    if r.None? || r.value <= 0.0 || r.value > 5.0 {
      r := Some(4.5);
    }
    rating := r.value;
    var stock := raw.inventory;
    if stock.None? || stock.value <= 0.0 {
      stock := Some(100.0);
    }
    inventory := stock.value;
  }

  /** What `validateProduct` makes of `raw`, field by field, given the
      product id and seller handle found in the url and the clock. */
  predicate RepairOf(p: ProductRecord, raw: RawProduct, productId: Option<string>, handle: Option<string>, now: nat) {
    && WellFormed(p)
    && p.title == raw.title
    && (raw.id != "" && raw.id != "unknown" ==> p.id == raw.id)
    && (raw.id == "" || raw.id == "unknown" ==> p.id == OrElseOpt(productId, ClockId(now)))
    && p.price == RepairedPrice(raw.price, raw.title)
    && (raw.seller != "" && raw.seller != "Unknown" ==> p.seller == raw.seller)
    && (raw.seller == "" || raw.seller == "Unknown" ==> p.seller == OrElseOpt(handle, "TikTok Shop Seller"))
    && (raw.imageUrl == "" || Contains(raw.imageUrl, "undefined") ==> p.imageUrl == TitleImage(raw.title))
    && (raw.imageUrl != "" && !Contains(raw.imageUrl, "undefined") ==> p.imageUrl == raw.imageUrl)
    && (raw.category != "" ==> p.category == raw.category)
    && (raw.category == "" ==> p.category == "TikTok Shop")
    && (raw.rating.Some? && 0.0 < raw.rating.value <= 5.0 ==> p.rating == raw.rating.value)
    && (!(raw.rating.Some? && 0.0 < raw.rating.value <= 5.0) ==> p.rating == 4.5)
    && (raw.inventory.Some? && raw.inventory.value > 0.0 ==> p.inventory == raw.inventory.value)
    && (!(raw.inventory.Some? && raw.inventory.value > 0.0) ==> p.inventory == 100.0)
  }

  /** The record `validateProduct` gives back for `raw`, as one value. */
  function Repaired(raw: RawProduct, productId: Option<string>, handle: Option<string>, now: nat): (p: ProductRecord)
  {
    ProductRecord(
      if raw.id == "" || raw.id == "unknown" then OrElseOpt(productId, ClockId(now)) else raw.id,
      raw.title,
      RepairedPrice(raw.price, raw.title),
      if raw.imageUrl == "" || Contains(raw.imageUrl, "undefined") then TitleImage(raw.title) else raw.imageUrl,
      if raw.seller == "" || raw.seller == "Unknown" then OrElseOpt(handle, "TikTok Shop Seller") else raw.seller,
      if raw.category == "" then "TikTok Shop" else raw.category,
      if raw.rating.Some? && 0.0 < raw.rating.value <= 5.0 then raw.rating.value else 4.5,
      if raw.inventory.Some? && raw.inventory.value > 0.0 then raw.inventory.value else 100.0)
  }

  /** The record `Repaired` builds obeys the repair rules. */
  lemma RepairedObeysRules(raw: RawProduct, productId: Option<string>, handle: Option<string>, now: nat)
    ensures RepairOf(Repaired(raw, productId, handle, now), raw, productId, handle, now)
  {
  }

  /** The repair rules leave no choice: one record obeys them. */
  lemma RepairIsUnique(p: ProductRecord, raw: RawProduct, productId: Option<string>, handle: Option<string>, now: nat)
    requires RepairOf(p, raw, productId, handle, now)
    ensures p == Repaired(raw, productId, handle, now)
  {
  }

  /** `validateProduct(product, url)`: repairs the record one field after
      another; `productId` and `handle` are what the extractors found in
      the url. A field that is present and valid is kept; the title is
      never changed. */
  method ValidateProduct(raw: RawProduct, productId: Option<string>, handle: Option<string>, now: nat)
    returns (p: ProductRecord)
    ensures RepairOf(p, raw, productId, handle, now)
    ensures p == Repaired(raw, productId, handle, now)
  {
    var id, price, seller := RepairIdentity(raw, productId, handle, now);
    var imageUrl, category, rating, inventory := RepairListing(raw);
    p := ProductRecord(id, raw.title, price, imageUrl, seller, category, rating, inventory);
  }

  // ---------------------------------------------------------------- the catalogue

  /** The test products, keyed by a text the url must contain, in the
      order the handler tries them. */
  const TEST_PRODUCTS: seq<(string, ProductRecord)> := [
    ("devnet-test", ProductRecord("devnet-test-001", "Devnet Test Sticker Pack", 0.50,
       "https://placehold.co/400x400/10b981/ffffff?text=TEST+0.50", "SolTok Test Shop",
       "Digital Goods", 5.0, 999.0)),
    ("test-product", ProductRecord("test-product-001", "Test Product - Basic Tee", 9.99,
       "https://placehold.co/400x400/3b82f6/ffffff?text=TEST+9.99", "Demo Merchant",
       "Apparel", 4.8, 50.0)),
    ("premium-test", ProductRecord("premium-test-001", "Premium Test Item", 49.99,
       "https://placehold.co/400x400/8b5cf6/ffffff?text=TEST+49.99", "Premium Demo Shop",
       "Electronics", 4.9, 25.0))
  ]

  /** The first catalogue entry whose key the url contains. */
  function CatalogueMatch(url: string, from: nat := 0): (r: Option<nat>)
    requires forall k :: 0 <= k < from && k < |TEST_PRODUCTS| ==> !Contains(url, TEST_PRODUCTS[k].0)
    ensures r.Some? ==> r.value < |TEST_PRODUCTS| && Contains(url, TEST_PRODUCTS[r.value].0)
    ensures r.Some? ==> forall k :: 0 <= k < r.value ==> !Contains(url, TEST_PRODUCTS[k].0)
    ensures r.None? ==> forall k :: 0 <= k < |TEST_PRODUCTS| ==> !Contains(url, TEST_PRODUCTS[k].0)
    decreases |TEST_PRODUCTS| - from
  {
    if from >= |TEST_PRODUCTS| then None
    else if Contains(url, TEST_PRODUCTS[from].0) then Some(from)
    else CatalogueMatch(url, from + 1)
  }

  lemma CatalogueIsWellFormed()
    ensures forall i :: 0 <= i < |TEST_PRODUCTS| ==> WellFormed(TEST_PRODUCTS[i].1) && TEST_PRODUCTS[i].1.price > 0.0
  {
  }

  // ---------------------------------------------------------------- the handler

  /** `req.body.url`: absent or falsy, a string, or another JSON value. */
  datatype UrlField = Absent | Text(s: string) | NotText

  /** How the generation step ended: it threw (with an `Error`'s message,
      or a value that is not an `Error`), its text held no parsable JSON,
      or it described a product. */
  datatype Generation = GenThrows(message: Option<string>) | GenUnparseable | GenParsed(raw: RawProduct)

  datatype VerifyResponse =
    | Preflight
    | MethodNotAllowed
    | MissingUrl
    | NotTikTok
    | Found(product: ProductRecord, fallbackError: Option<string>)
    | Crashed(message: string)

  function StatusCode(r: VerifyResponse): int {
    match r
    case Preflight => 200
    case MethodNotAllowed => 405
    case MissingUrl => 400
    case NotTikTok => 400
    case Found(_, _) => 200
    case Crashed(_) => 500
  }

  /** The description built when the generated text does not parse. */
  function BasicProduct(productId: Option<string>, handle: Option<string>, now: nat): (raw: RawProduct)
    ensures raw.id != "" && raw.price == Some(0.0) && raw.imageUrl == ""
  {
    RawProduct(OrElseOpt(productId, ClockId(now)), "TikTok Shop Product", Some(0.0), "",
               OrElseOpt(handle, "TikTok Seller"), "TikTok Shop", Some(4.5), Some(100.0))
  }

  /** The description handed to `validateProduct`: the parsed one, or the
      basic one built from the url when the generated text does not
      parse. */
  function GeneratedRaw(gen: Generation, productId: Option<string>, handle: Option<string>, now: nat): (raw: RawProduct)
    requires !gen.GenThrows?
    ensures gen.GenUnparseable? ==> raw.title != "" && raw.id != ""
  {
    if gen.GenParsed? then gen.raw else BasicProduct(productId, handle, now)
  }

  const NO_PRODUCT_INFO := "Could not extract product information"

  /** The answer when the generation step returned: the repaired
      description, or the fallback product when its title is empty. */
  function GeneratedResponse(url: string, gen: Generation, now: nat, productId: Option<string>): (resp: VerifyResponse)
    requires !gen.GenThrows?
    ensures resp.Found? && WellFormed(resp.product)
    ensures resp.fallbackError.None? <==> GeneratedRaw(gen, productId, SellerHandle(url), now).title != ""
  {
    var raw := GeneratedRaw(gen, productId, SellerHandle(url), now);
    if raw.title != "" then Found(Repaired(raw, productId, SellerHandle(url), now), None)
    else Found(FallbackProduct(productId, SellerHandle(url), now), Some(NO_PRODUCT_INFO))
  }

  /** The product of the `catch` block. */
  function FallbackProduct(productId: Option<string>, handle: Option<string>, now: nat): (p: ProductRecord)
    ensures WellFormed(p) && p.price == 19.99
    ensures productId.Some? && productId.value != "" ==> p.id == productId.value
  {
    ProductRecord(OrElseOpt(productId, ClockId(now)), "TikTok Shop Product", 19.99,
                  "https://placehold.co/400x400/1a1a2e/10b981?text=TikTok+Product",
                  OrElseOpt(handle, "TikTok Shop Seller"), "TikTok Shop", 4.5, 100.0)
  }

  predicate PastGuards(httpMethod: string, body: UrlField) {
    httpMethod == "POST" && body.Text? && body.s != "" && Contains(body.s, "tiktok.com")
  }

  /** The handler. `extracted` is what the product-id extractor gives for
      the url: `ExtractProductIdAsWritten` for the endpoint as written, or
      `CorrectedExtractor`. The extractor is a function of the url, so
      every call the handler makes to it (in `validateProduct`, when the
      generated text does not parse, and in the `catch` block) gives this
      same outcome. */
  method HandleVerifyProduct(httpMethod: string, body: UrlField, gen: Generation, now: nat,
                             extracted: Result<Option<string>, string>)
    returns (resp: VerifyResponse)
    ensures httpMethod == "OPTIONS" ==> resp == Preflight
    ensures httpMethod != "OPTIONS" && httpMethod != "POST" ==> resp == MethodNotAllowed
    ensures httpMethod == "POST" && (!body.Text? || body.s == "") ==> resp == MissingUrl
    ensures httpMethod == "POST" && body.Text? && body.s != "" && !Contains(body.s, "tiktok.com") ==>
      resp == NotTikTok
    ensures PastGuards(httpMethod, body) && CatalogueMatch(body.s).Some? ==>
      resp == Found(TEST_PRODUCTS[CatalogueMatch(body.s).value].1, None)
    ensures PastGuards(httpMethod, body) && CatalogueMatch(body.s).None? && extracted.Err? ==>
      resp == Crashed(extracted.error)
    ensures PastGuards(httpMethod, body) && extracted.Ok? ==> resp.Found?
    ensures PastGuards(httpMethod, body) && CatalogueMatch(body.s).None? && extracted.Ok? && gen.GenThrows? ==>
      resp == Found(FallbackProduct(extracted.value, SellerHandle(body.s), now),
                    Some(gen.message.GetOr("Unknown error")))
    ensures PastGuards(httpMethod, body) && CatalogueMatch(body.s).None? && extracted.Ok? && !gen.GenThrows? ==>
      resp == GeneratedResponse(body.s, gen, now, extracted.value)
    ensures resp.Found? ==> WellFormed(resp.product)
    ensures resp.Found? && resp.fallbackError.Some? ==> resp.product.price == 19.99
  {
    if httpMethod == "OPTIONS" {
      return Preflight;
    }
    if httpMethod != "POST" {
      return MethodNotAllowed;
    }
    if !body.Text? || body.s == "" {
      return MissingUrl;
    }
    var url := body.s;
    if !Contains(url, "tiktok.com") {
      return NotTikTok;
    }
    CatalogueIsWellFormed();
    var entry := LookupCatalogue(url);
    if entry.Some? {
      return Found(TEST_PRODUCTS[entry.value].1, None);
    }
    resp := DescribeProduct(url, gen, now, extracted);
  }

  /** The loop over the test products: the first one whose key the url
      contains. */
  method LookupCatalogue(url: string) returns (entry: Option<nat>)
    ensures entry == CatalogueMatch(url)
  {
    var i := 0;
    while i < |TEST_PRODUCTS|
      invariant 0 <= i <= |TEST_PRODUCTS|
      invariant forall k :: 0 <= k < i ==> !Contains(url, TEST_PRODUCTS[k].0)
      invariant CatalogueMatch(url) == CatalogueMatch(url, i)
    {
      if Contains(url, TEST_PRODUCTS[i].0) {
        return Some(i);
      }
      i := i + 1;
    }
    return None;
  }

  /** The `try`/`catch` that describes a product the catalogue does not
      hold. */
  method DescribeProduct(url: string, gen: Generation, now: nat,
                         extracted: Result<Option<string>, string>)
    returns (resp: VerifyResponse)
    ensures extracted.Err? ==> resp == Crashed(extracted.error)
    ensures extracted.Ok? ==> resp.Found?
    ensures extracted.Ok? && gen.GenThrows? ==>
      resp == Found(FallbackProduct(extracted.value, SellerHandle(url), now),
                    Some(gen.message.GetOr("Unknown error")))
    ensures extracted.Ok? && !gen.GenThrows? ==> resp == GeneratedResponse(url, gen, now, extracted.value)
    ensures resp.Found? ==> WellFormed(resp.product)
    ensures resp.Found? && resp.fallbackError.Some? ==> resp.product.price == 19.99
  {
    var attempt := TryDescribe(url, gen, now, extracted);
    if attempt.Ok? {
      return Found(attempt.value, None);
    }
    // catch
    var id := extracted;
    if id.Err? {
      return Crashed(id.error);
    }
    return Found(FallbackProduct(id.value, SellerHandle(url), now), Some(attempt.error));
  }

  /** The `try` block: the generated description, repaired, or the text
      of what was thrown. */
  method TryDescribe(url: string, gen: Generation, now: nat,
                     extracted: Result<Option<string>, string>)
    returns (attempt: Result<ProductRecord, string>)
    ensures gen.GenThrows? ==> attempt == Err(gen.message.GetOr("Unknown error"))
    ensures !gen.GenThrows? && extracted.Err? ==> attempt == Err(extracted.error)
    ensures !gen.GenThrows? && extracted.Ok? ==>
      var raw := GeneratedRaw(gen, extracted.value, SellerHandle(url), now);
      attempt == if raw.title != "" then Ok(Repaired(raw, extracted.value, SellerHandle(url), now))
                 else Err(NO_PRODUCT_INFO)
  {
    var raw := RawProduct("", "", None, "", "", "", None, None);
    match gen {
      case GenThrows(m) =>
        return Err(m.GetOr("Unknown error"));
      case GenUnparseable =>
        var id := extracted;
        if id.Err? {
          return Err(id.error);
        }
        raw := BasicProduct(id.value, SellerHandle(url), now);
      case GenParsed(p) =>
        raw := p;
    }
    var id := extracted;
    if id.Err? {
      return Err(id.error);
    }
    var product := ValidateProduct(raw, id.value, SellerHandle(url), now);
    if product.title == "" {
      return Err(NO_PRODUCT_INFO);
    }
    return Ok(product);
  }

  /** As written, a scheme-less address whose generation step fails ends
      in an unhandled error: the `catch` block's own call to the extractor
      throws. */
  method SchemelessRequestAsWritten(now: nat) returns (resp: VerifyResponse)
    ensures resp == Crashed(INVALID_URL)
    ensures StatusCode(resp) == 500
  {
    SchemelessUrlPassesGuards();
    SchemelessUrlThrows();
    resp := ThrowingRequestAsWritten(SCHEMELESS_URL, now);
  }

  /** As written, any url that passes the guards, names no test product
      and makes the extractor throw ends in an unhandled error when the
      generation step fails. */
  method ThrowingRequestAsWritten(url: string, now: nat) returns (resp: VerifyResponse)
    requires url != "" && Contains(url, "tiktok.com") && CatalogueMatch(url).None?
    requires ExtractProductIdAsWritten(url).Err?
    ensures resp == Crashed(ExtractProductIdAsWritten(url).error)
    ensures StatusCode(resp) == 500
  {
    resp := HandleVerifyProduct("POST", Text(url), GenThrows(None), now, ExtractProductIdAsWritten(url));
  }

  /** The endpoint with the corrected extractor: every request that
      passes the guards is answered with a product, 200. */
  method HandleVerifyProductCorrected(httpMethod: string, body: UrlField, gen: Generation, now: nat)
    returns (resp: VerifyResponse)
    ensures PastGuards(httpMethod, body) ==> resp.Found? && StatusCode(resp) == 200
    ensures PastGuards(httpMethod, body) && CatalogueMatch(body.s).None? && gen.GenThrows? ==>
      resp.product == FallbackProduct(ExtractProductId(body.s), SellerHandle(body.s), now)
    ensures PastGuards(httpMethod, body) && CatalogueMatch(body.s).None? && !gen.GenThrows? ==>
      resp == GeneratedResponse(body.s, gen, now, ExtractProductId(body.s))
    ensures !resp.Crashed?
  {
    if !body.Text? {
      resp := HandleVerifyProduct(httpMethod, body, gen, now, Ok(None));
      return;
    }
    resp := HandleVerifyProduct(httpMethod, body, gen, now, CorrectedExtractor(body.s));
  }

  lemma SchemelessExtractsNothing()
    ensures CorrectedExtractor(SCHEMELESS_URL) == Ok(None)
  {
    SchemelessUrlThrows();
  }

  lemma SchemelessHandle()
    ensures SellerHandle(SCHEMELESS_URL) == Some("shop")
  {
    var url := SCHEMELESS_URL;
    forall k | 0 <= k < 11
      ensures !HandleAt(url, k)
    {
    }
    assert HandleAt(url, 11);
    assert HandleMatch(url) == Some(11);
    assert RunFrom(url, 12, NotSlash) == 4;
    assert url[12..16] == "shop";
  }
}
