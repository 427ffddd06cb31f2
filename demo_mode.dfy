/** The demo wallet and catalogue (src/hooks/useDemoMode.ts): a
    simulated USDC balance, a persisted on/off flag and a URL hash that
    picks a sample product.  Math.random draws and Date.now are
    parameters. */
module DemoMode {
  import opened Wrappers
  import opened Text
  import opened Types

  const STARTING_BALANCE: real := 500.0
  const DEMO_MODE_KEY: string := "soltok_demo_mode"
  const BASE58_ALPHABET: string := "ABCDEFGHJKLMNPQRSTUVWXYZabcdefghijkmnopqrstuvwxyz123456789"

  function Demo(id: string, title: string, price: real, image: string, seller: string,
                category: string, rating: real, inventory: real): TikTokProduct
  {
    TikTokProduct(id, None, title, price, "https://picsum.photos/seed/" + image + "/400/400",
                  seller, None, category, rating, inventory, None)
  }

  const DEMO_PRODUCTS: seq<TikTokProduct> := [
    Demo("demo-1", "Viral LED Sunset Lamp Projector", 24.99, "sunset-lamp",
         "HomeVibes Official", "Home & Living", 4.8, 1247.0),
    Demo("demo-2", "Cloud Slides - Ultra Comfy Pillow Slippers", 19.99, "cloud-slides",
         "ComfortWalk Store", "Footwear", 4.9, 3821.0),
    Demo("demo-3", "Mini Portable Blender USB Rechargeable", 29.99, "mini-blender",
         "KitchenTech Pro", "Kitchen", 4.7, 892.0),
    Demo("demo-4", "Aesthetic Phone Case with Card Holder", 12.99, "phone-case",
         "CaseCraft", "Accessories", 4.6, 5621.0),
    Demo("demo-5", "Smart Posture Corrector with Vibration", 34.99, "posture",
         "HealthTech Solutions", "Health & Wellness", 4.5, 432.0)
  ]

  /** A Math.random() result. */
  predicate IsDraw(r: real) { 0.0 <= r < 1.0 }

  // ---------------------------------------------------------------------
  // The URL hash of verifyProduct

  const TWO_32: int := 0x1_0000_0000
  const TWO_31: int := 0x8000_0000

  /** ECMAScript ToInt32 of an integral number. */
  function ToInt32(x: int): (r: int)
    ensures -TWO_31 <= r < TWO_31
    ensures r == x - TWO_32 * ((x + TWO_31) / TWO_32)
  {
    (x + TWO_31) % TWO_32 - TWO_31
  }

  /** One step of the reduce: `((a << 5) - a) + code`.  Only the shift
      works on 32 bits; the subtraction and the addition are exact (the
      values stay far below 2^53 for any realistic URL). */
  function HashStep(a: int, c: char): int {
    ToInt32(ToInt32(a) * 32) - a + c as int
  }

  function UrlHash(url: string): int {
    if url == [] then 0 else HashStep(UrlHash(url[..|url| - 1]), url[|url| - 1])
  }

  /** The textbook polynomial string hash, computed exactly. */
  function PolyHash(s: string): int {
    if s == [] then 0 else 31 * PolyHash(s[..|s| - 1]) + s[|s| - 1] as int
  }

  /** The reduce agrees with the textbook `31 * h + c` hash modulo 2^32:
      the shift's truncation only ever drops multiples of 2^32. */
  lemma {:induction false} UrlHashIsPolyHashMod32(url: string) returns (q: int)
    ensures UrlHash(url) == PolyHash(url) + TWO_32 * q
  {
    if url == [] {
      q := 0;
    } else {
      var p := url[..|url| - 1];
      var c := url[|url| - 1];
      var j := UrlHashIsPolyHashMod32(p);
      var a := UrlHash(p);
      var k0 := (a + TWO_31) / TWO_32;
      var k1 := (ToInt32(a) * 32 + TWO_31) / TWO_32;
      assert ToInt32(a) == a - TWO_32 * k0;
      assert HashStep(a, c) == 32 * (a - TWO_32 * k0) - TWO_32 * k1 - a + c as int;
      assert HashStep(a, c) == 31 * a + c as int - TWO_32 * (32 * k0 + k1);
      assert 31 * a == 31 * PolyHash(p) + TWO_32 * (31 * j);
      q := 31 * j - 32 * k0 - k1;
    }
  }

  function DemoIndex(url: string): (idx: nat)
    ensures idx < |DEMO_PRODUCTS|
  {
    var h := UrlHash(url);
    (if h < 0 then -h else h) % |DEMO_PRODUCTS|
  }

  /** `verifyProduct`: the sample product the URL's hash selects, with a
      fresh `demo-<now>` id and every other field as in the catalogue. */
  function VerifyProduct(url: string, now: nat): (p: TikTokProduct)
    ensures p.id == "demo-" + NatToString(now)
    ensures exists i :: 0 <= i < |DEMO_PRODUCTS| && p == DEMO_PRODUCTS[i].(id := p.id)
  {
    var i := DemoIndex(url);
    DEMO_PRODUCTS[i].(id := "demo-" + NatToString(now))
  }

  /** `getRandomProduct`. */
  function GetRandomProduct(r: real): (p: TikTokProduct)
    requires IsDraw(r)
    ensures p in DEMO_PRODUCTS
  {
    var i := (r * 5.0).Floor;
    assert 0 <= i < 5;
    DEMO_PRODUCTS[i]
  }

  // ---------------------------------------------------------------------
  // Fake hashes

  function Base58Char(r: real): (c: char)
    requires IsDraw(r)
    ensures c in BASE58_ALPHABET
  {
    var i := (r * 58.0).Floor;
    assert 0 <= i < 58;
    BASE58_ALPHABET[i]
  }

  /** `Array.from({ length }, () => alphabet[Math.floor(Math.random() * 58)]).join('')`. */
  function RandomBase58(draws: seq<real>): (s: string)
    requires forall i :: 0 <= i < |draws| ==> IsDraw(draws[i])
    ensures |s| == |draws|
    ensures forall i :: 0 <= i < |s| ==> s[i] in BASE58_ALPHABET
  {
    seq(|draws|, i requires 0 <= i < |draws| => Base58Char(draws[i]))
  }

  datatype DemoEscrow = DemoEscrow(txHash: string, escrowPda: string)

  /** The error thrown on an overdraft, with the balance and the amount. */
  datatype InsufficientBalance = InsufficientBalance(have: real, need: real)

  datatype BalanceCheck = BalanceCheck(sufficient: bool, balance: real)

  class DemoWallet {
    var isDemoMode: bool
    /** The persisted 'soltok_demo_mode' entry. */
    var savedFlag: Option<string>
    var balance: real

    ghost predicate Valid()
      reads this
    {
      balance >= 0.0
    }

    /** Demo mode is on exactly when the saved entry is the string "true";
        the balance starts at 500 USDC. */
    constructor (saved: Option<string>)
      ensures Valid()
      ensures isDemoMode == (saved == Some("true")) && savedFlag == saved
      ensures balance == STARTING_BALANCE
    {
      isDemoMode := saved == Some("true");
      savedFlag := saved;
      balance := STARTING_BALANCE;
    }

    method ToggleDemoMode()
      modifies this
      ensures isDemoMode == !old(isDemoMode)
      ensures savedFlag == Some(if isDemoMode then "true" else "false")
      ensures balance == old(balance)
    {
      var newValue := !isDemoMode;
      savedFlag := Some(if newValue then "true" else "false");
      isDemoMode := newValue;
    }

    /** `createDemoEscrow`: an overdraft throws and changes nothing;
        otherwise the balance drops by exactly the amount and two fake
        base58 strings of 88 and 44 characters come back.  The balance
        can never become negative. */
    method CreateDemoEscrow(orderId: string, amount: real, draws: seq<real>)
      returns (r: Result<DemoEscrow, InsufficientBalance>)
      requires Valid()
      requires |draws| == 88 + 44 && forall i :: 0 <= i < |draws| ==> IsDraw(draws[i])
      modifies this
      ensures Valid()
      ensures isDemoMode == old(isDemoMode) && savedFlag == old(savedFlag)
      ensures amount > old(balance) ==>
        r == Err(InsufficientBalance(old(balance), amount)) && balance == old(balance)
      ensures amount <= old(balance) ==>
        && r.Ok? && balance == old(balance) - amount
        && |r.value.txHash| == 88 && |r.value.escrowPda| == 44
        && (forall i :: 0 <= i < 88 ==> r.value.txHash[i] in BASE58_ALPHABET)
        && (forall i :: 0 <= i < 44 ==> r.value.escrowPda[i] in BASE58_ALPHABET)
    {
      if amount > balance {
        return Err(InsufficientBalance(balance, amount));
      }
      balance := balance - amount;
      var txHash := RandomBase58(draws[..88]);
      var escrowPda := RandomBase58(draws[88..]);
      r := Ok(DemoEscrow(txHash, escrowPda));
    }

    /** `checkDemoBalance`: sufficient exactly when the balance covers the
        amount; nothing changes. */
    function CheckDemoBalance(required: real): (r: BalanceCheck)
      reads this
      ensures r.balance == balance
      ensures r.sufficient <==> balance >= required
    {
      BalanceCheck(balance >= required, balance)
    }

    method ResetDemoWallet()
      modifies this
      ensures balance == STARTING_BALANCE
      ensures Valid()
      ensures isDemoMode == old(isDemoMode) && savedFlag == old(savedFlag)
    {
      balance := STARTING_BALANCE;
    }
  }
}
