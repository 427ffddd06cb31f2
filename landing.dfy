/** The landing page (`src/pages/Landing.tsx`): the shop-link check, the
    product lookup with its acceptance test, the priority-ordered
    translation of lookup errors into user messages, and the checkout
    guards. The lookup service is outside the model: how it ended is a
    parameter. */
module Landing {
  import opened Wrappers
  import opened Text
  import opened Types

  // ---------------------------------------------------------------- the link check

  /** `/^https?:\/\/(www\.)?(tiktok\.com|shop\.tiktok\.com)/i`. The `i`
      flag without `u` folds ASCII letters only, so matching the
      lower-cased text against the lower-case pattern is exact. */
  predicate IsShopUrl(url: string) {
    var l := ToLower(url);
    (StartsWith(l, "https://") && HostFollows(l[8..])) ||
    (StartsWith(l, "http://") && HostFollows(l[7..]))
  }

  /** `(www\.)?(tiktok\.com|shop\.tiktok\.com)` at the start of `rest`. */
  predicate HostFollows(rest: string) {
    ShopHost(rest) || (StartsWith(rest, "www.") && ShopHost(rest[4..]))
  }

  predicate ShopHost(rest: string) {
    StartsWith(rest, "tiktok.com") || StartsWith(rest, "shop.tiktok.com")
  }

  lemma PrefixOccurs(s: string, p: string, i: nat)
    requires i <= |s| && StartsWith(s[i..], p)
    ensures Contains(s, p)
  {
    assert s[i..i + |p|] == s[i..][..|p|];
    assert OccursAt(s, p, i);
    ContainsIff(s, p);
  }

  /** An accepted link names tiktok.com, in some mix of letter cases. */
  lemma ShopUrlNamesTikTok(url: string)
    requires IsShopUrl(url)
    ensures Contains(ToLower(url), "tiktok.com")
  {
    var l := ToLower(url);
    if StartsWith(l, "https://") && HostFollows(l[8..]) {
      HostNamesTikTok(l, 8);
    } else {
      HostNamesTikTok(l, 7);
    }
  }

  /** A text whose host part starts at `i` names tiktok.com. */
  lemma HostNamesTikTok(s: string, i: nat)
    requires i <= |s| && HostFollows(s[i..])
    ensures Contains(s, "tiktok.com")
  {
    if ShopHost(s[i..]) {
      ShopHostNamesTikTok(s, i);
    } else {
      assert s[i..][4..] == s[i + 4..];
      ShopHostNamesTikTok(s, i + 4);
    }
  }

  lemma ShopHostNamesTikTok(s: string, i: nat)
    requires i <= |s| && ShopHost(s[i..])
    ensures Contains(s, "tiktok.com")
  {
    if StartsWith(s[i..], "tiktok.com") {
      PrefixOccurs(s, "tiktok.com", i);
    } else {
      assert s[i + 5..][..10] == s[i..][..15][5..];
      PrefixOccurs(s, "tiktok.com", i + 5);
    }
  }

  lemma ToLowerIdempotent(s: string)
    ensures ToLower(ToLower(s)) == ToLower(s)
  {
  }

  /** Letter case does not matter to the check. */
  lemma ShopUrlIgnoresCase(url: string)
    ensures IsShopUrl(url) <==> IsShopUrl(ToLower(url))
  {
    ToLowerIdempotent(url);
  }

  // ---------------------------------------------------------------- error messages

  const DEFAULT_ERROR := "Failed to verify product. Please check the link and try again."
  const INCOMPLETE := "Product data incomplete. The link may not be a valid product page."

  /** A user message, and whether the manual-entry form is to be opened
      two seconds later. */
  datatype Classified = Classified(message: string, offersManualEntry: bool)

  /** One rule of the classifier: every clause must have one of its
      phrases in the lower-cased error message. */
  datatype Rule = Rule(clauses: seq<seq<string>>, message: string, offersManualEntry: bool)

  /** The rules in the order the page tries them. */
  const RULES: seq<Rule> := [
    Rule([["timeout", "abort"]],
         "Verification is taking longer than expected. The system is trying an alternative method. Please wait or try again.", false),
    Rule([["scraper"], ["failed"]],
         "Advanced verification method failed. Trying alternative method...", false),
    Rule([["both scraper and gemini", "fallback failed"]],
         "Unable to verify product automatically. You can enter the product details manually.", true),
    Rule([["network", "fetch"]], "Network error. Please check your connection and try again.", false),
    Rule([["not found", "404"]], "Product not found. Please check the link is correct.", false),
    Rule([["api", "key"]], "Service temporarily unavailable. Please try again in a moment.", false),
    Rule([["invalid", "format"]], "Invalid product link format. Please use a TikTok Shop product URL.", false),
    Rule([["incomplete"]], INCOMPLETE, false)
  ]

  predicate AnyPhrase(s: string, phrases: seq<string>) {
    exists k :: 0 <= k < |phrases| && Contains(s, phrases[k])
  }

  predicate RuleMatches(s: string, rule: Rule) {
    forall c :: 0 <= c < |rule.clauses| ==> AnyPhrase(s, rule.clauses[c])
  }

  /** The first rule at or after `from` that matches. */
  function FirstRule(s: string, from: nat := 0): (r: Option<nat>)
    requires forall k :: 0 <= k < from && k < |RULES| ==> !RuleMatches(s, RULES[k])
    ensures r.Some? ==> r.value < |RULES| && RuleMatches(s, RULES[r.value])
    ensures r.Some? ==> forall k :: 0 <= k < r.value ==> !RuleMatches(s, RULES[k])
    ensures r.None? ==> forall k :: 0 <= k < |RULES| ==> !RuleMatches(s, RULES[k])
    decreases |RULES| - from
  {
    if from >= |RULES| then None
    else if RuleMatches(s, RULES[from]) then Some(from)
    else FirstRule(s, from + 1)
  }

  /** The `catch` block's chain of tests on the thrown message: an empty
      message gives the default text; otherwise the first rule whose
      phrases the lower-cased message contains decides, and a message no
      rule matches is shown as it is. */
  function ClassifyError(message: string): Classified {
    if message == "" then Classified(DEFAULT_ERROR, false)
    else
      var m := ToLower(message);
      if Contains(m, "timeout") || Contains(m, "abort") then Classified(RULES[0].message, false)
      else if Contains(m, "scraper") && Contains(m, "failed") then Classified(RULES[1].message, false)
      else if Contains(m, "both scraper and gemini") || Contains(m, "fallback failed") then Classified(RULES[2].message, true)
      else if Contains(m, "network") || Contains(m, "fetch") then Classified(RULES[3].message, false)
      else if Contains(m, "not found") || Contains(m, "404") then Classified(RULES[4].message, false)
      else if Contains(m, "api") || Contains(m, "key") then Classified(RULES[5].message, false)
      else if Contains(m, "invalid") || Contains(m, "format") then Classified(RULES[6].message, false)
      else if Contains(m, "incomplete") then Classified(INCOMPLETE, false)
      else Classified(message, false)
  }

  lemma AnyOfOne(s: string, a: string)
    ensures AnyPhrase(s, [a]) <==> Contains(s, a)
  {
    if Contains(s, a) {
      assert [a][0] == a;
    }
  }

  lemma AnyOfTwo(s: string, a: string, b: string)
    ensures AnyPhrase(s, [a, b]) <==> Contains(s, a) || Contains(s, b)
  {
    if Contains(s, a) {
      assert [a, b][0] == a;
    }
    if Contains(s, b) {
      assert [a, b][1] == b;
    }
  }

  lemma TwoClauses(s: string, rule: Rule)
    requires |rule.clauses| == 2
    ensures RuleMatches(s, rule) <==> AnyPhrase(s, rule.clauses[0]) && AnyPhrase(s, rule.clauses[1])
  {
    if AnyPhrase(s, rule.clauses[0]) && AnyPhrase(s, rule.clauses[1]) {
      forall c | 0 <= c < 2
        ensures AnyPhrase(s, rule.clauses[c])
      {
        if c == 1 {
        }
      }
    }
  }

  lemma OneClause(s: string, rule: Rule)
    requires |rule.clauses| == 1
    ensures RuleMatches(s, rule) <==> AnyPhrase(s, rule.clauses[0])
  {
  }

  /** What each rule of the table tests, spelled out. */
  lemma RulesMeaning(s: string)
    ensures RuleMatches(s, RULES[0]) <==> Contains(s, "timeout") || Contains(s, "abort")
    ensures RuleMatches(s, RULES[1]) <==> Contains(s, "scraper") && Contains(s, "failed")
    ensures RuleMatches(s, RULES[2]) <==> Contains(s, "both scraper and gemini") || Contains(s, "fallback failed")
    ensures RuleMatches(s, RULES[3]) <==> Contains(s, "network") || Contains(s, "fetch")
    ensures RuleMatches(s, RULES[4]) <==> Contains(s, "not found") || Contains(s, "404")
    ensures RuleMatches(s, RULES[5]) <==> Contains(s, "api") || Contains(s, "key")
    ensures RuleMatches(s, RULES[6]) <==> Contains(s, "invalid") || Contains(s, "format")
    ensures RuleMatches(s, RULES[7]) <==> Contains(s, "incomplete")
  {
    var rules := RULES;
    OneClause(s, rules[0]);
    AnyOfTwo(s, "timeout", "abort");
    TwoClauses(s, rules[1]);
    AnyOfOne(s, "scraper");
    AnyOfOne(s, "failed");
    OneClause(s, rules[2]);
    AnyOfTwo(s, "both scraper and gemini", "fallback failed");
    OneClause(s, rules[3]);
    AnyOfTwo(s, "network", "fetch");
    OneClause(s, rules[4]);
    AnyOfTwo(s, "not found", "404");
    OneClause(s, rules[5]);
    AnyOfTwo(s, "api", "key");
    OneClause(s, rules[6]);
    AnyOfTwo(s, "invalid", "format");
    OneClause(s, rules[7]);
    AnyOfOne(s, "incomplete");
  }

  /** The chain of tests is the rule table read in order: an empty message
      gives the default text, the first matching rule decides, and a
      message no rule matches is shown as it is. */
  lemma ClassifyByRules(message: string)
    ensures message == "" ==> ClassifyError(message) == Classified(DEFAULT_ERROR, false)
    ensures message != "" && FirstRule(ToLower(message)).Some? ==>
      var k := FirstRule(ToLower(message)).value;
      ClassifyError(message) == Classified(RULES[k].message, RULES[k].offersManualEntry)
    ensures message != "" && FirstRule(ToLower(message)).None? ==>
      ClassifyError(message) == Classified(message, false)
  {
    if message != "" {
      RulesMeaning(ToLower(message));
    }
  }

  /** Every message the classifier produces is non-empty. */
  lemma ClassifiedMessageIsNonEmpty(message: string)
    ensures ClassifyError(message).message != ""
  {
  }

  // ---------------------------------------------------------------- the page

  datatype Toast = SuccessToast(text: string) | ErrorToast(text: string)

  /** How the product lookup ended: it returned a product (or null), with
      the `_needsManualEntry` marker, or it threw with a message ("" when
      the error has none). */
  datatype Lookup = Returned(product: Option<TikTokProduct>, needsManualEntry: bool) | Threw(message: string)

  /** The acceptance test on a returned product: present, with a title and
      a price. */
  predicate Accepted(p: Option<TikTokProduct>) {
    p.Some? && p.value.title != "" && p.value.price != 0.0
  }

  const ENTER_LINK := "Please enter a TikTok Shop link"
  const INVALID_LINK := "Please enter a valid TikTok Shop URL (e.g., https://www.tiktok.com/@shop/product/...)"
  const VERIFIED := "Product verified! Ready to checkout."
  const CONNECT_WALLET := "Please connect your wallet first"
  const ORDER_PLACED := "Order placed successfully!"

  class LandingPage {
    var tiktokUrl: string
    var product: Option<TikTokProduct>
    var loading: bool
    var showCheckout: bool
    var showManualEntry: bool
    /** A `setTimeout` that will open the manual-entry form. */
    var manualEntryScheduled: bool
    var verificationError: Option<string>
    var toasts: seq<Toast>
    /** The urls handed to the lookup service, in order. */
    var lookups: seq<string>

    constructor ()
      ensures tiktokUrl == "" && product.None? && !loading && !showCheckout && !showManualEntry
      ensures !manualEntryScheduled && verificationError.None? && toasts == [] && lookups == []
    {
      tiktokUrl := "";
      product := None;
      loading := false;
      showCheckout := false;
      showManualEntry := false;
      manualEntryScheduled := false;
      verificationError := None;
      toasts := [];
      lookups := [];
    }

    /** `handleVerifyProduct`. */
    method HandleVerifyProduct(lookup: Lookup)
      modifies this
      ensures tiktokUrl == old(tiktokUrl) && showCheckout == old(showCheckout) && !loading
      ensures IsBlank(tiktokUrl) ==>
        toasts == old(toasts) + [ErrorToast(ENTER_LINK)] && lookups == old(lookups) &&
        product == old(product) && verificationError == old(verificationError) &&
        showManualEntry == old(showManualEntry) && manualEntryScheduled == old(manualEntryScheduled)
      ensures !IsBlank(tiktokUrl) && !IsShopUrl(tiktokUrl) ==>
        toasts == old(toasts) + [ErrorToast(INVALID_LINK)] && lookups == old(lookups) &&
        product == old(product) && verificationError == old(verificationError) &&
        showManualEntry == old(showManualEntry) && manualEntryScheduled == old(manualEntryScheduled)
      ensures !IsBlank(tiktokUrl) && IsShopUrl(tiktokUrl) ==> lookups == old(lookups) + [tiktokUrl]
      ensures !IsBlank(tiktokUrl) && IsShopUrl(tiktokUrl) ==> Received(lookup, old(product), old(toasts),
        old(showManualEntry), old(manualEntryScheduled))
    {
      if IsBlank(tiktokUrl) {
        toasts := toasts + [ErrorToast(ENTER_LINK)];
        loading := false;
        return;
      }
      if !IsShopUrl(tiktokUrl) {
        toasts := toasts + [ErrorToast(INVALID_LINK)];
        loading := false;
        return;
      }
      loading := true;
      verificationError := None;
      lookups := lookups + [tiktokUrl];
      ReceiveLookup(lookup);
    }

    /** The state after the lookup came back, from the state before it. */
    ghost predicate Received(lookup: Lookup, product0: Option<TikTokProduct>, toasts0: seq<Toast>,
                             manual0: bool, scheduled0: bool)
      reads this
    {
      (lookup.Returned? && Accepted(lookup.product) ==>
        product == lookup.product && toasts == toasts0 + [SuccessToast(VERIFIED)] &&
        verificationError.None? && showManualEntry == manual0 && manualEntryScheduled == scheduled0) &&
      (AsksForManualEntry(lookup) ==>
        showManualEntry && product == product0 && toasts == toasts0 && verificationError.None? &&
        manualEntryScheduled == scheduled0) &&
      (Failed(lookup) ==>
        var c := ClassifyError(FailureMessage(lookup));
        product.None? && verificationError == Some(c.message) &&
        toasts == toasts0 + [ErrorToast(c.message)] && showManualEntry == manual0 &&
        manualEntryScheduled == (scheduled0 || c.offersManualEntry))
    }

    /** The `try`/`catch`/`finally` around the lookup. */
    method ReceiveLookup(lookup: Lookup)
      requires verificationError.None?
      modifies this
      ensures Received(lookup, old(product), old(toasts), old(showManualEntry), old(manualEntryScheduled))
      ensures tiktokUrl == old(tiktokUrl) && showCheckout == old(showCheckout) && lookups == old(lookups)
      ensures !loading
    {
      if lookup.Returned? && Accepted(lookup.product) {
        product := lookup.product;
        toasts := toasts + [SuccessToast(VERIFIED)];
      } else if AsksForManualEntry(lookup) {
        showManualEntry := true;
      } else {
        // the `catch` block: a thrown error, or the page's own error for a
        // product without title or price
        var c := ClassifyError(FailureMessage(lookup));
        if c.offersManualEntry {
          manualEntryScheduled := true;
        }
        toasts := toasts + [ErrorToast(c.message)];
        verificationError := Some(c.message);
        product := None;
      }
      loading := false;
    }

    /** `handleCheckout`: needs a verified product and a connected wallet. */
    method HandleCheckout(connected: bool)
      modifies this
      ensures showCheckout <==> old(showCheckout) || (product.Some? && connected)
      ensures toasts == if product.Some? && !connected then old(toasts) + [ErrorToast(CONNECT_WALLET)] else old(toasts)
      ensures product == old(product) && tiktokUrl == old(tiktokUrl) && lookups == old(lookups)
      ensures verificationError == old(verificationError) && showManualEntry == old(showManualEntry)
      ensures manualEntryScheduled == old(manualEntryScheduled) && loading == old(loading)
    {
      if product.None? {
        return;
      }
      if !connected {
        toasts := toasts + [ErrorToast(CONNECT_WALLET)];
        return;
      }
      showCheckout := true;
    }

    /** `handleClearProduct`. */
    method HandleClearProduct()
      modifies this
      ensures product.None? && tiktokUrl == "" && verificationError.None?
      ensures toasts == old(toasts) && lookups == old(lookups) && showCheckout == old(showCheckout)
      ensures showManualEntry == old(showManualEntry) && manualEntryScheduled == old(manualEntryScheduled)
      ensures loading == old(loading)
    {
      product := None;
      tiktokUrl := "";
      verificationError := None;
    }

    /** `handleCheckoutComplete`: the checkout closes and the page is
        ready for the next link. */
    method HandleCheckoutComplete()
      modifies this
      ensures !showCheckout && product.None? && tiktokUrl == ""
      ensures toasts == old(toasts) + [SuccessToast(ORDER_PLACED)]
      ensures lookups == old(lookups) && verificationError == old(verificationError)
      ensures showManualEntry == old(showManualEntry) && manualEntryScheduled == old(manualEntryScheduled)
      ensures loading == old(loading)
    {
      showCheckout := false;
      product := None;
      tiktokUrl := "";
      toasts := toasts + [SuccessToast(ORDER_PLACED)];
    }
  }

  /** A product without title or price that asks for manual entry. */
  predicate AsksForManualEntry(lookup: Lookup) {
    lookup.Returned? && !Accepted(lookup.product) && lookup.product.Some? && lookup.needsManualEntry
  }

  /** The lookup ended in the `catch` block: it threw, or returned nothing
      usable without asking for manual entry. */
  predicate Failed(lookup: Lookup) {
    lookup.Threw? || (!Accepted(lookup.product) && !AsksForManualEntry(lookup))
  }

  function FailureMessage(lookup: Lookup): string {
    if lookup.Threw? then lookup.message else INCOMPLETE
  }
}
