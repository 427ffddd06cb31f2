/** What the two product endpoints (`api/verify-product.ts` and
    `api/scrape-tiktok.ts`) share: the product record they answer with,
    the regular expressions they apply to the TikTok url and to titles
    (`/\/product\/(\d+)/`, `/@([^/]+)/`, `/\$(\d+(?:\.\d{2})?)/`) and the
    placeholder image address. A regular expression's `match` is the
    leftmost position where it matches; the greedy runs it captures are
    maximal. */
module ProductPages {
  import opened Wrappers
  import opened Text

  /** The product JSON both endpoints send back. */
  datatype ProductRecord = ProductRecord(
    id: string,
    title: string,
    price: real,
    imageUrl: string,
    seller: string,
    category: string,
    rating: real,
    inventory: real)

  /** The length of the longest run of characters satisfying `p` that
      starts at `i`. */
  function RunFrom(s: string, i: nat, p: char -> bool): (n: nat)
    requires i <= |s|
    ensures i + n <= |s|
    ensures forall k :: i <= k < i + n ==> p(s[k])
    ensures i + n == |s| || !p(s[i + n])
    decreases |s| - i
  {
    if i == |s| || !p(s[i]) then 0 else 1 + RunFrom(s, i + 1, p)
  }

  predicate NotSlash(c: char) {
    c != '/'
  }

  // ---------------------------------------------------------------- /product/(\d+)

  /** `/\/product\/(\d+)/` matches at `i`. */
  predicate ProductAt(url: string, i: nat) {
    OccursAt(url, "/product/", i) && i + 9 < |url| && IsDigit(url[i + 9])
  }

  /** The leftmost match at or after `from`. */
  function ProductMatch(url: string, from: nat := 0): (r: Option<nat>)
    requires forall k :: 0 <= k < from ==> !ProductAt(url, k)
    ensures r.Some? ==> from <= r.value < |url| && ProductAt(url, r.value)
    ensures r.Some? ==> forall k :: 0 <= k < r.value ==> !ProductAt(url, k)
    ensures r.None? ==> forall k :: 0 <= k < |url| ==> !ProductAt(url, k)
    decreases |url| - from
  {
    if from >= |url| then None
    else if ProductAt(url, from) then Some(from)
    else ProductMatch(url, from + 1)
  }

  /** `url.match(/\/product\/(\d+)/)?.[1]`: the whole digit run after the
      leftmost `/product/` that is followed by a digit. */
  function ProductIdInPath(url: string): (r: Option<string>)
    ensures r.None? <==> forall k :: 0 <= k < |url| ==> !ProductAt(url, k)
    ensures r.Some? ==>
      var i := ProductMatch(url).value;
      |r.value| >= 1 && i + 9 + |r.value| <= |url| &&
      r.value == url[i + 9..i + 9 + |r.value|] &&
      (forall k :: 0 <= k < |r.value| ==> IsDigit(r.value[k])) &&
      (i + 9 + |r.value| == |url| || !IsDigit(url[i + 9 + |r.value|]))
  {
    match ProductMatch(url)
    case None => None
    case Some(i) => Some(url[i + 9..i + 9 + RunFrom(url, i + 9, IsDigit)])
  }

  // ---------------------------------------------------------------- @([^/]+)

  /** `/@([^/]+)/` matches at `i`. */
  predicate HandleAt(url: string, i: nat) {
    i + 1 < |url| && url[i] == '@' && url[i + 1] != '/'
  }

  function HandleMatch(url: string, from: nat := 0): (r: Option<nat>)
    requires forall k :: 0 <= k < from ==> !HandleAt(url, k)
    ensures r.Some? ==> from <= r.value < |url| && HandleAt(url, r.value)
    ensures r.Some? ==> forall k :: 0 <= k < r.value ==> !HandleAt(url, k)
    ensures r.None? ==> forall k :: 0 <= k < |url| ==> !HandleAt(url, k)
    decreases |url| - from
  {
    if from >= |url| then None
    else if HandleAt(url, from) then Some(from)
    else HandleMatch(url, from + 1)
  }

  /** `url.match(/@([^/]+)/)?.[1]`: the non-empty run after the leftmost
      `@` that is not directly followed by `/`, up to the next `/`. */
  function SellerHandle(url: string): (r: Option<string>)
    ensures r.None? <==> forall k :: 0 <= k < |url| ==> !HandleAt(url, k)
    ensures r.Some? ==>
      var i := HandleMatch(url).value;
      |r.value| >= 1 && i + 1 + |r.value| <= |url| &&
      r.value == url[i + 1..i + 1 + |r.value|] &&
      (forall k :: 0 <= k < |r.value| ==> r.value[k] != '/') &&
      (i + 1 + |r.value| == |url| || url[i + 1 + |r.value|] == '/')
  {
    match HandleMatch(url)
    case None => None
    case Some(i) => Some(url[i + 1..i + 1 + RunFrom(url, i + 1, NotSlash)])
  }

  // ---------------------------------------------------------------- \$(\d+(?:\.\d{2})?)

  /** `/\$(\d+(?:\.\d{2})?)/` matches at `i`. */
  predicate DollarAt(t: string, i: nat) {
    i + 1 < |t| && t[i] == '$' && IsDigit(t[i + 1])
  }

  /** A `.` and two digits at `j`: the optional cents of the price. */
  predicate CentsAt(t: string, j: nat) {
    j + 3 <= |t| && t[j] == '.' && IsDigit(t[j + 1]) && IsDigit(t[j + 2])
  }

  /** `parseFloat` of the captured amount: whole dollars plus, when the
      two-digit cents are present, cents / 100. */
  function AmountAt(t: string, i: nat): (v: real)
    requires DollarAt(t, i)
    ensures v >= 0.0
  {
    var n := RunFrom(t, i + 1, IsDigit);
    var dollars := DigitsValue(t[i + 1..i + 1 + n]) as real;
    if CentsAt(t, i + 1 + n) then dollars + DigitsValue(t[i + 2 + n..i + 4 + n]) as real / 100.0
    else dollars
  }

  function DollarMatch(t: string, from: nat := 0): (r: Option<nat>)
    requires forall k :: 0 <= k < from ==> !DollarAt(t, k)
    ensures r.Some? ==> from <= r.value < |t| && DollarAt(t, r.value)
    ensures r.Some? ==> forall k :: 0 <= k < r.value ==> !DollarAt(t, k)
    ensures r.None? ==> forall k :: 0 <= k < |t| ==> !DollarAt(t, k)
    decreases |t| - from
  {
    if from >= |t| then None
    else if DollarAt(t, from) then Some(from)
    else DollarMatch(t, from + 1)
  }

  /** The price the leftmost `$amount` of a text names, if it has one. */
  function DollarAmount(t: string): (r: Option<real>)
    ensures r.None? <==> forall k :: 0 <= k < |t| ==> !DollarAt(t, k)
    ensures r.Some? ==> r.value == AmountAt(t, DollarMatch(t).value)
    ensures r.Some? ==> r.value >= 0.0
  {
    match DollarMatch(t)
    case None => None
    case Some(i) => Some(AmountAt(t, i))
  }

  /** Example: the price found in the title `Tee $12.50` is 12.5.  The
      rule for every title is the contract of `DollarAmount`. */
  lemma DollarsAndCents()
    ensures DollarAmount("Tee $12.50") == Some(12.5)
  {
    var t := "Tee $12.50";
    TeeDollarAt();
    TeeDigits();
    assert CentsAt(t, 7);
  }

  /** Example, a step of `DollarsAndCents`: the leftmost `$amount` of
      `Tee $12.50` starts at 4. */
  lemma TeeDollarAt()
    ensures DollarMatch("Tee $12.50") == Some(4)
  {
    var t := "Tee $12.50";
    assert !DollarAt(t, 0) && !DollarAt(t, 1) && !DollarAt(t, 2) && !DollarAt(t, 3) && DollarAt(t, 4);
  }

  /** Example, a step of `DollarsAndCents`: its dollars are the two
      digits `12` and its cents `50`. */
  lemma TeeDigits()
    ensures RunFrom("Tee $12.50", 5, IsDigit) == 2
    ensures "Tee $12.50"[5..7] == "12" && "Tee $12.50"[8..10] == "50"
    ensures DigitsValue("12") == 12 && DigitsValue("50") == 50
  {
    var t := "Tee $12.50";
    assert RunFrom(t, 7, IsDigit) == 0;
    assert DigitsValue("12") == 12 by { assert "12"[..1] == "1"; }
    assert DigitsValue("50") == 50 by { assert "50"[..1] == "5"; }
  }

  /** Example of the edge case: the cents group needs two digits, so in
      `Tee $7.5` only the dollars are read. */
  lemma CentsNeedTwoDigits()
    ensures DollarAmount("Tee $7.5") == Some(7.0)
  {
    var u := "Tee $7.5";
    assert !DollarAt(u, 0) && !DollarAt(u, 1) && !DollarAt(u, 2) && !DollarAt(u, 3) && DollarAt(u, 4);
    assert DollarMatch(u) == Some(4);
    assert RunFrom(u, 5, IsDigit) == 1;
    assert u[5..6] == "7";
    assert DigitsValue("7") == 7;
    assert !CentsAt(u, 6);
  }

  // ---------------------------------------------------------------- placeholder image

  const PLACEHOLDER_BASE := "https://placehold.co/400x400/1a1a2e/10b981?text="

  /** The placeholder image whose caption is `caption`, percent-encoded. */
  function PlaceholderImage(caption: string): (r: string)
    ensures StartsWith(r, PLACEHOLDER_BASE)
    ensures r[|PLACEHOLDER_BASE|..] == EncodeUriComponent(caption)
  {
    PLACEHOLDER_BASE + EncodeUriComponent(caption)
  }

  /** The identifier built from the clock when the url names no product:
      `tiktok-${Date.now()}`. */
  function ClockId(now: nat): (r: string)
    ensures StartsWith(r, "tiktok-") && |r| > 7
  {
    "tiktok-" + NatToString(now)
  }
}
