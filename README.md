# SolTok Bridge escrow and order lifecycle, in Dafny

SolTok Bridge lets a shopper pay for a TikTok Shop product in USDC on
Solana. The money sits in an on-chain escrow until an operator either
releases it to fulfilment (minus a treasury fee) or refunds it to the
buyer. This project models the core of that system and proves properties
of the model:

- the Anchor escrow program:
  - its four instructions and their account checks;
  - the fee split;
  - the account layouts;
  - the status machine Locked → Released | Refunded;
- the browser-side escrow client:
  - address derivation;
  - the instruction encoding;
  - the account decoder;
  - USDC unit conversion;
- the escrow hook, the demo wallet, the deployment script and the
  operator session;
- the order records:
  - the server endpoints that create and read orders;
  - the Supabase-backed orders hook;
  - the local order storage;
- the checkout flow of the app:
  - the order built at checkout;
  - the simulated fulfilment steps;
- the operator dashboard and the analytics;
- the product endpoints:
  - verifying a TikTok link against a generated answer;
  - scraping a page;
- the landing page's link check and error classifier;
- the browser extension's background worker.

Each core source file becomes one module. Pure code becomes functions
and lemmas. Code that updates state in place becomes a class:
- React state becomes class fields that the handlers' methods reassign;
- the program's accounts become maps;
- effects a handler performs (toasts, storage writes, network calls)
  become sequences the methods append to.
Outcomes the code awaits from outside are parameters: the network, the
chain, a language model, a headless browser, the clock and randomness.
JavaScript numbers are reals. Integer widths of the Rust program (u8,
u16, u64, u128) are explicit subset types, and overflow is modelled
where it can happen.

## Model

| member | source | states |
|---|---|---|
| EscrowProgram.FeeSplit | programs/escrow/src/lib.rs:50-57 | the fee and the fulfilment amount add up to the deposit; with a fee of at most 10000 bps the fee is the rounded-down amount × bps / 10000 and never exceeds the amount; with the 1000 bps cap it is at most a tenth |
| EscrowProgram.FeeBound | programs/escrow/src/lib.rs:50-57 | the scaled fee is at most the amount (bps ≤ 10000) and at most a tenth of it (bps ≤ 1000) |
| EscrowProgram.FeeProductFitsU128 | programs/escrow/src/lib.rs:52-54 | `amount as u128 * fee_bps` never overflows u128, so that `checked_mul` never panics |
| EscrowProgram.Transfer | programs/escrow/src/lib.rs:70-81 | an SPL transfer succeeds iff the mints agree and the source holds the amount; on success it debits the source, credits the destination and changes no other account |
| EscrowProgram.InitializeProperties | programs/escrow/src/lib.rs:22-40 | initialize fails above 1000 bps; it succeeds iff no config exists and the fee is within the cap; the new counters are zero and escrows and tokens are untouched |
| EscrowProgram.CreateEscrowRejects | programs/escrow/src/lib.rs:47-48 | an order id over 32 bytes or a zero amount is rejected |
| EscrowProgram.CreateEscrowEffects | programs/escrow/src/lib.rs:42-90 | a successful create_escrow stores a fresh Locked escrow at the ("escrow", order id, buyer) address with the buyer, order id, amount and exact fee split; it moves the amount from the buyer's token account to the vault and grows total_deposits by the amount |
| EscrowProgram.TerminalStatusesAreFinal | programs/escrow/src/lib.rs:94 | release (and refund, line 157) fail on an escrow that is not Locked, so Released and Refunded are final |
| EscrowProgram.ReleaseEscrowEffects | programs/escrow/src/lib.rs:92-153 | a successful release pays the fee to the treasury and the fulfilment amount to the fulfilment vault, debits the vault by the amount, marks the escrow Released with the release time and grows total_released by the amount |
| EscrowProgram.RefundEscrowEffects | programs/escrow/src/lib.rs:155-195 | a successful refund returns the whole amount to the buyer's token account, debits the vault, marks the escrow Refunded and leaves the config unchanged |
| EscrowProgram.InitializePreserves | programs/escrow/src/lib.rs:22-40 | initialize keeps the program invariant, changes no escrow and leaves the counters as they are |
| EscrowProgram.CreateEscrowPreserves | programs/escrow/src/lib.rs:42-90 | create_escrow keeps the program invariant; it only adds a Locked escrow and only grows total_deposits |
| EscrowProgram.ReleaseEscrowPreserves | programs/escrow/src/lib.rs:92-153 | release keeps the program invariant; it only moves one escrow out of Locked and only grows total_released |
| EscrowProgram.RefundEscrowPreserves | programs/escrow/src/lib.rs:155-195 | refund keeps the program invariant; it only moves one escrow out of Locked and changes no counter |
| EscrowProgram.EscrowChain.constructor | programs/escrow/src/lib.rs:268-290 | a fresh deployment has no config and no escrow and satisfies the invariant |
| EscrowProgram.EscrowChain.Initialize | programs/escrow/src/lib.rs:22-40 | the new state is the initialize transition; on error the state is unchanged (transactions are atomic); the invariant is kept |
| EscrowProgram.EscrowChain.CreateEscrow | programs/escrow/src/lib.rs:42-90 | returns the escrow address of (order id, buyer); the new state is the create_escrow transition, or unchanged on error; the invariant is kept |
| EscrowProgram.EscrowChain.ReleaseEscrow | programs/escrow/src/lib.rs:92-153 | the new state is the release transition, or unchanged on error; the invariant is kept |
| EscrowProgram.EscrowChain.RefundEscrow | programs/escrow/src/lib.rs:155-195 | the new state is the refund transition, or unchanged on error; the invariant is kept |
| EscrowProgram.U64Bytes | programs/escrow/src/lib.rs:241-243 | a u64 field occupies 8 bytes |
| EscrowProgram.BorshString | programs/escrow/src/lib.rs:240 | a string is its 4-byte length followed by its bytes |
| EscrowProgram.BorshOptionI64 | programs/escrow/src/lib.rs:246 | an `Option<i64>` takes 9 bytes when set and 1 when not |
| EscrowProgram.ConfigSizeExact | programs/escrow/src/lib.rs:214-222 | `EscrowConfig::SIZE` (123) is exactly the serialized size of a config |
| EscrowProgram.EscrowFitsAccount | programs/escrow/src/lib.rs:237-248 | a serialized escrow with an order id of at most 32 bytes fits `Escrow::SIZE` (119), and fills it exactly with a 32-byte id and a set released_at |
| EscrowService.AddressesMatchProgram | src/services/escrowService.ts:28-41 | the client derives the config and escrow addresses from the same seed lists as the program's account constraints |
| EscrowService.VaultSeedsUnknownToProgram | src/services/escrowService.ts:44-49 | the client's ("vault", escrow) seed list is neither of the program's seed lists, so the vault address it passes is not one the program derives |
| EscrowService.GetEscrowPda | src/services/escrowService.ts:36-41 | the escrow address exists iff the order id is at most 32 bytes (the seed limit of the derivation, equal to the program's order-id limit) and is then the address of the program's escrow seeds; a longer id gives the seed-length error |
| EscrowService.Lamports | src/services/escrowService.ts:53 | the base-unit number is the floor of amount × 10^6 |
| EscrowService.UsdcToLamports | src/services/escrowService.ts:52-54 | the BN exists iff 1 − 2^53 ≤ amount × 10^6 < 2^53 (bn.js asserts a magnitude below 2^53) and is then the floor of amount × 10^6 |
| EscrowService.LamportsToUsdc | src/services/escrowService.ts:57-59 | the USDC amount times 10^6 is the base-unit amount |
| EscrowService.UnitsRoundTrip | src/services/escrowService.ts:52-59 | converting the floor to base units and back never gains value, and is exact iff the amount has at most six decimals |
| EscrowService.AmountBytes | src/services/escrowService.ts:94 | `toArrayLike(Buffer, 'le', 8)` writes 8 bytes |
| EscrowService.CopyInto | src/services/escrowService.ts:91-94 | `Buffer.copy` writes the source at the offset and leaves every other byte as it was |
| EscrowService.CreateEscrowData | src/services/escrowService.ts:85-94 | for an id of at most 32 bytes and an amount below 2^53 (what the earlier steps guarantee) the buffer is the 8-byte tag, the little-endian order-id length, the order id and the 8 amount bytes |
| EscrowService.CreateEscrowDataReadsBack | src/services/escrowService.ts:86-94 | the program's Borsh reading of the buffer gives back the order id and the magnitude of the base-unit amount, so a negative amount arrives positive |
| EscrowService.CreateEscrowInstruction | src/services/escrowService.ts:64-117 | the instruction exists iff the amount makes a BN and the order id is at most 32 bytes; a failure is the amount's assertion when the amount is unsafe (checked first, line 76) and otherwise the seed-length error (line 79); on success it calls the program with the nine accounts, the escrow and vault addresses are the ones returned, and the data decodes to the order id and the amount's magnitude |
| EscrowService.BuildEscrowTransaction | src/services/escrowService.ts:122-171 | the transaction exists iff the instruction does and fails with the same error; it is paid by the buyer, carries the blockhash, creates the buyer's token account first exactly when it does not exist, and ends with the create-escrow call with the nine accounts and data that decode to the order id and the amount's magnitude |
| EscrowService.ToNumber | src/services/escrowService.ts:224 | `BN.toNumber` is exact below 2^53 and throws otherwise |
| EscrowService.PubkeyFromBytes | src/services/escrowService.ts:201 | 32 bytes are the key itself; a shorter slice is right-aligned in the key |
| EscrowService.StatusAt | src/services/escrowService.ts:219-220 | byte 0 is Locked, byte 1 Released, anything else (including a missing byte) Refunded |
| EscrowService.DecodeEscrowAccount | src/services/escrowService.ts:195-234 | the decoder that walks one offset through the data computes exactly the field-by-field reading |
| EscrowService.DecodeFromFields | src/services/escrowService.ts:198-224 | data whose fields sit at the offsets the decoder reads decode to those fields |
| EscrowService.DecodeSerializedEscrow | src/services/escrowService.ts:195-234 | the account data the program writes for an escrow (plus unused trailing bytes) decodes to that escrow's view, when its amounts and creation time are below 2^53 and the creation time is not negative |
| EscrowService.SerializedEscrowLayout | programs/escrow/src/lib.rs:225-235 | in the Borsh layout of an escrow account the buyer sits at bytes 8..40, the order-id length at 40..44, the order id after it, then the three amounts, the status byte and the creation time, each little-endian |
| EscrowService.DecodeLaidOut | src/services/escrowService.ts:195-234 | data that holds an escrow's fields at the offsets of the program's layout decodes to that escrow's view |
| EscrowService.ReadBackAmounts | src/services/escrowService.ts:209-214 | the three amounts written little-endian one after another read back as themselves |
| EscrowService.StatusReadBack | src/services/escrowService.ts:219-220 | the status byte the program writes reads back as the same status |
| EscrowService.GetEscrowAccount | src/services/escrowService.ts:176-235 | an order id over 32 bytes throws the seed-length error; otherwise null exactly when no account exists at the escrow address of (order id, buyer), and else the decoded record or the decoder's error |
| EscrowService.ReadStoredEscrow | src/services/escrowService.ts:176-235 | at the escrow address of an order id of at most 32 bytes, the account data the program stored for an escrow reads back as that escrow's view (amounts and creation time below 2^53, creation time not negative) |
| InitializeEscrow.ConfigPdaMatchesProgram | scripts/initialize-escrow.ts:41-46 | the script derives the config address from the program's own "config" seed list |
| InitializeEscrow.ConfiguredFeeWithinCap | scripts/initialize-escrow.ts:31 | the 500 bps fee is within the program's 1000 bps cap, and it splits a 100 USDC deposit into 5 USDC of fee and 95 USDC for fulfilment |
| InitializeEscrow.InitializeData | scripts/initialize-escrow.ts:56-63 | the data is the 8-byte `initialize` discriminator followed by the fee as a 2-byte little-endian number |
| InitializeEscrow.BuildInitializeInstruction | scripts/initialize-escrow.ts:49-76 | calls the program with five accounts: the config writable, the admin the only signer and writable, the treasury, fulfilment vault and system program read-only |
| InitializeEscrow.PlanInitialization | scripts/initialize-escrow.ts:95-148 | sends nothing iff the config account already exists; otherwise it creates the admin's USDC account first exactly when it is missing, then calls initialize with that account as both treasury and fulfilment vault at 500 bps |
| InitializeEscrow.InitializationSucceeds | scripts/initialize-escrow.ts:140-148 | on a program with no config yet, the planned initialize succeeds and stores the one account as treasury and fulfilment vault with 500 bps |
| EscrowHook.BuildTransaction | src/hooks/useEscrow.ts:52-58 | the build succeeds iff the amount makes a BN and the order id is at most 32 bytes, fails with the client's error otherwise, and targets the escrow address of (order id, wallet key) |
| EscrowHook.EscrowHook.constructor | src/hooks/useEscrow.ts:29-30 | the hook starts idle with no error and no external call made |
| EscrowHook.EscrowHook.CreateEscrow | src/hooks/useEscrow.ts:35-88 | without a connected wallet, key and signer it returns "Wallet not connected" and calls nothing; otherwise build, sign, send and confirm run in that order, each only after the previous one succeeded; success carries the transaction hash and escrow address and needs every step to succeed with no confirmation error; a confirmation error gives success false with "Transaction failed: …"; a build the client refuses makes only the build call and returns and stores its message ("Assertion failed" for an unsafe amount, "Max seed length exceeded" for a long id); a failure stores its message; isProcessing is false again at the end |
| EscrowHook.EscrowHook.SubmitCreate | src/hooks/useEscrow.ts:46-80 | the try block makes build, sign, send and confirm calls in that order, stopping at the first that fails; it yields the escrow address only when all four succeeded and the confirmation had no error, and "Transaction failed: …" when it had one; it stops after the build call exactly when the client refuses the amount or the id, with that throw's message |
| EscrowHook.EscrowHook.GetEscrowStatus | src/hooks/useEscrow.ts:93-125 | the buyer is the address given, else the wallet key; an address `new PublicKey` refuses rejects the call outside the try block; with no buyer it stores "No buyer address provided" and gives null; otherwise no escrow gives null, a derivation or decoding throw stores its message and gives null, and an escrow gives its record with the creation time in milliseconds; nothing else changes |
| EscrowHook.StatusOf | src/hooks/useEscrow.ts:111-119 | the status record copies the decoded fields and turns the creation time from seconds into milliseconds |
| EscrowHook.GetEscrowAddress | src/hooks/useEscrow.ts:130-134 | null when there is no wallet key; with a key it throws "Max seed length exceeded" exactly when the order id is over 32 bytes, and otherwise gives the escrow address of (order id, key) |
| EscrowHook.AddressMatchesCreated | src/hooks/useEscrow.ts:130-134 | for an order id of at most 32 bytes the reported address is the one a successful createEscrow returns |
| EscrowHook.CheckUsdcBalance | src/hooks/useEscrow.ts:139-166 | no key or a failed lookup gives {sufficient: false, balance: 0}; otherwise the balance is the reported amount (0 when null) and sufficient holds iff it covers the requirement |
| DemoMode.ToInt32 | src/hooks/useDemoMode.ts:94 | the 32-bit conversion `<<` applies lands in [-2^31, 2^31) and differs from its argument by a multiple of 2^32 |
| DemoMode.UrlHashIsPolyHashMod32 | src/hooks/useDemoMode.ts:94 | the `reduce` hash of the url equals the polynomial hash Σ 31^k·code modulo 2^32 |
| DemoMode.DemoIndex | src/hooks/useDemoMode.ts:95 | `Math.abs(hash) % 5` is always a valid index of the five demo products |
| DemoMode.VerifyProduct | src/hooks/useDemoMode.ts:89-97 | the result is one of the demo products with only its id replaced, by "demo-" and the clock |
| DemoMode.GetRandomProduct | src/hooks/useDemoMode.ts:83-86 | a random draw in [0, 1) always picks one of the demo products |
| DemoMode.RandomBase58 | src/hooks/useDemoMode.ts:116-122 | one character per draw, each from the 58-character alphabet |
| DemoMode.DemoWallet.constructor | src/hooks/useDemoMode.ts:65-71 | demo mode is on exactly when the saved entry is "true"; the balance starts at 500 |
| DemoMode.DemoWallet.ToggleDemoMode | src/hooks/useDemoMode.ts:74-80 | negates the flag, persists the new value as "true"/"false" and leaves the balance alone |
| DemoMode.DemoWallet.CreateDemoEscrow | src/hooks/useDemoMode.ts:100-129 | an amount above the balance throws with the balance and the amount and changes nothing; otherwise the balance drops by exactly the amount and an 88-character hash and a 44-character address come back, all base58; the balance never goes negative |
| DemoMode.DemoWallet.CheckDemoBalance | src/hooks/useDemoMode.ts:132-138 | reports the balance unchanged, sufficient iff it covers the requirement |
| DemoMode.DemoWallet.ResetDemoWallet | src/hooks/useDemoMode.ts:141-143 | restores the balance to 500 and nothing else |
| ServerStore.OrderKeyInjective | api/create-order.ts:121 | two order ids share the `order:<id>` key exactly when they are equal; orders that draw different ids therefore never share a record |
| ServerStore.Backend.constructor | api/create-order.ts:3-15 | a fresh deployment has an empty key-value store (when its module loads) and an empty in-memory map |
| CreateOrderApi.CreateOrderGuards | api/create-order.ts:63-96 | OPTIONS alone answers 200 and another non-POST method 405; a POST answers 400 exactly when a required field (txHash, buyerPubkey, product, totalUsdc, shippingAddress) is falsy or the address lacks fullName, street or city; an order is created exactly when every guard passes; a rejected request changes no store |
| CreateOrderApi.CreatedOrderShape | api/create-order.ts:98-142 | a created order is 'paid' and holds the product once with quantity 1; it keeps the given escrowPda ('' when absent) and has the five initial steps, all pending; its id is "ST-" and a number in [1000, 9999]; the 201 response reports that id |
| CreateOrderApi.StoreOrderPlacement | api/create-order.ts:116-130 | a clean key-value write stores `order:<id>` and pushes the id onto `orders:list`; with no key-value store, or when `set` throws, the order goes to the in-memory map only; when only `lpush` throws it is in both |
| CreateOrderApi.HandleCreateOrder | api/create-order.ts:63-150 | the response and the new stores are exactly those of the handler's transition over the stores before the request |
| OrderStatusApi.KvGet | api/order-status.ts:39-45 | the key-value read yields a record exactly when the store loaded, the read did not throw and `order:<id>` is present |
| OrderStatusApi.Lookup | api/order-status.ts:47-50 | the key-value record wins when there is one; otherwise the in-memory record, if any |
| OrderStatusApi.GetOrderStatus | api/order-status.ts:15-68 | OPTIONS is answered 200; another non-GET method 405; a missing, empty or repeated id 400; otherwise the looked-up order (200) or 404 with the id |
| OrderStatusApi.SetServerStep | api/order-status.ts:93-95 | the step list keeps its length and order; exactly the steps with the given id take the new status |
| OrderStatusApi.UpdatedOrder | api/order-status.ts:93-101 | only the steps and the status change; the status becomes 'shipped' when every step is completed after the update and is untouched otherwise |
| OrderStatusApi.CompletingLastStepShips | api/order-status.ts:97-101 | completing the one step still open ships the order; setting any other status keeps the order's status |
| OrderStatusApi.UpdateOrderStatus | api/order-status.ts:71-115 | returns null and writes nothing when neither store has the order; otherwise returns the updated record and writes it to the key-value store, or to the in-memory map when the store is absent or the write throws; a record read from the in-memory map is changed in place, so the map holds the update even when the key-value write succeeds; nothing else changes |
| OrderStatusApi.CreatedOrderLostAsWritten | api/order-status.ts:4 | with no key-value store, an order just created is found in create-order's exported map but answered 404 against this file's own empty map |
| OrderStatusApi.CreatedOrderIsFound | api/order-status.ts:47-50 | against the stores create-order writes, a newly created order is always found again, except when it went only to the key-value store and the read throws |
| OrdersHook.DbToAppOrder | src/hooks/useOrders.ts:38-61 | id, status and creation time come from the row; missing fulfilment steps become [] |
| OrdersHook.AppToDbOrder | src/hooks/useOrders.ts:64-82 | the row carries the order's id, status and steps |
| OrdersHook.ConversionRoundTrip | src/hooks/useOrders.ts:38-82 | an order converted to a row and back is unchanged except for the creation time the table assigns; a row with steps survives the reverse trip |
| OrdersHook.RemoveId | src/hooks/useOrders.ts:170-176 | exactly the orders with another id remain, and the list does not grow |
| OrdersHook.RemoveIdKeepsOrder | src/hooks/useOrders.ts:173 | removing an id from a concatenation removes it from each part, so the orders that remain keep their relative order |
| OrdersHook.InsertEvent | src/hooks/useOrders.ts:156-162 | the inserted record goes first and no other record keeps its id; every other record stays |
| OrdersHook.ReplaceId | src/hooks/useOrders.ts:163-169 | every record with the id is replaced by the new one; length and positions are unchanged |
| OrdersHook.UpdateUnknownIdIsNoop | src/hooks/useOrders.ts:166 | an UPDATE for an id not in the list changes nothing, so unknown ids are never inserted |
| OrdersHook.Merge | src/hooks/useOrders.ts:213 | `{ ...o, ...updates }`: an empty patch changes nothing, and a present status or step list overrides the order's |
| OrdersHook.MergeInto | src/hooks/useOrders.ts:213 | only the orders with the id take the patch; length and positions are unchanged |
| OrdersHook.RemotePatch | src/hooks/useOrders.ts:221-224 | the remote patch carries the status, the steps, and the transaction hash only when it is a non-empty string |
| OrdersHook.OrdersHook.constructor | src/hooks/useOrders.ts:86-90 | the hook starts empty and loading, with no error and no remote call |
| OrdersHook.OrdersHook.LoadOrders | src/hooks/useOrders.ts:119-147 | a successful remote read replaces the list and the cache with the converted rows; a failing read sets the error and falls back to the cache; without the remote table the cache is used; loading ends false |
| OrdersHook.OrdersHook.OnRealtime | src/hooks/useOrders.ts:150-183 | the list becomes the INSERT, UPDATE or DELETE transform of the old list, and the cache holds the same list |
| OrdersHook.OrdersHook.AddOrder | src/hooks/useOrders.ts:186-207 | the order is prepended without deduplication and cached, the remote create is issued when the table is on, and the result is always true |
| OrdersHook.OrdersHook.UpdateOrder | src/hooks/useOrders.ts:210-233 | the patch is merged into the matching orders only, the cache follows, the remote update carries the remote patch, and the result is always true |
| OrdersHook.OrdersHook.UpdateOrderStatus | src/hooks/useOrders.ts:236-238 | only the status of the orders with the id changes, and one remote update carrying only the status is issued exactly when the database is configured |
| OrdersHook.OrdersHook.UpdateOrderSteps | src/hooks/useOrders.ts:241-243 | only the steps of the orders with the id change, and one remote update carrying only the steps is issued exactly when the database is configured |
| OrdersHook.OrdersHook.SetOrders | src/hooks/useOrders.ts:255-261 | the list becomes the given one and the cache holds the same list |
| OrderStorage.Merge | src/hooks/useOrderStorage.ts:33 | `{ ...o, ...updates }`: an empty patch changes nothing; a present status overrides the order's and an absent one keeps it; absent steps are kept |
| OrderStorage.RemoveOrder | src/hooks/useOrderStorage.ts:39 | exactly the orders with another id remain, and the list does not grow |
| OrderStorage.RemoveAbsentIsNoop | src/hooks/useOrderStorage.ts:39 | removing an id no order has leaves the list as it was |
| OrderStorage.Ids | src/hooks/useOrderStorage.ts:85 | the id set holds exactly the ids of the list's orders |
| OrderStorage.Carried | src/hooks/useOrderStorage.ts:70 | the orders of an imported file, one per element, in file order |
| OrderStorage.Fresh | src/hooks/useOrderStorage.ts:86 | exactly the imported orders whose ids are not already present, and no more than the file holds |
| OrderStorage.CountStatus | src/hooks/useOrderStorage.ts:104-107 | a status's count never exceeds the number of orders |
| OrderStorage.GetStats | src/hooks/useOrderStorage.ts:102-112 | total is the list's length; a status appears in byStatus exactly when some order has it, with that order count |
| OrderStorage.CountsSumToTotal | src/hooks/useOrderStorage.ts:102-112 | the byStatus counts add up to the total |
| OrderStorage.OrderStorage.constructor | src/hooks/useOrderStorage.ts:7-14 | the list starts as the saved one, or empty when there is none, and is persisted |
| OrderStorage.OrderStorage.AddOrder | src/hooks/useOrderStorage.ts:26-28 | the order is placed at the front and the list is persisted |
| OrderStorage.OrderStorage.UpdateOrder | src/hooks/useOrderStorage.ts:31-35 | only the orders with the id take the patch; length and positions are unchanged |
| OrderStorage.OrderStorage.RemoveOrderById | src/hooks/useOrderStorage.ts:38-40 | every order with the id is removed and the rest stay |
| OrderStorage.OrderStorage.ClearOrders | src/hooks/useOrderStorage.ts:43-45 | the list becomes empty and is persisted |
| OrderStorage.OrderStorage.ImportOrders | src/hooks/useOrderStorage.ts:63-99 | an unparseable file, a non-array, or an element missing its id, timestamp or status is rejected and nothing changes; otherwise the orders with new ids go in front in file order, and the answer is the number of elements in the file, not the number added |
| OrderStorage.ImportMergeProperties | src/hooks/useOrderStorage.ts:84-88 | importing keeps every existing order in place behind the new ones, adds no order whose id is already present, and adds at most as many orders as the file holds |
| OperatorContext.OperatorSession.constructor | src/contexts/OperatorContext.tsx:20-27 | the session starts signed in, with the persisted key, exactly when that key is one of the three valid keys; the invariant (signed in iff a key is held, and the key is valid) holds |
| OperatorContext.OperatorSession.Login | src/contexts/OperatorContext.tsx:29-37 | succeeds iff the key is one of the three valid keys; success signs in with that key and persists it; failure changes nothing; the invariant is kept |
| OperatorContext.OperatorSession.Logout | src/contexts/OperatorContext.tsx:39-43 | clears the flag and the key and removes the persisted entry |
| OperatorContext.ValidKeysAreNonEmpty | src/contexts/OperatorContext.tsx:22 | no valid key is empty, so the truthiness test of the initial state adds nothing to the membership test |
| OperatorDashboard.CountIn | components/OperatorDashboard.tsx:58-59 | a status-set count never exceeds the number of orders |
| OperatorDashboard.DisjointCountsAdd | components/OperatorDashboard.tsx:58-59 | counts over two disjoint status sets add up to the count over their union |
| OperatorDashboard.StatsPartitionOrders | components/OperatorDashboard.tsx:56-61 | 'pending' (pending or processing) plus 'completed' (shipped or delivered) is the total |
| OperatorDashboard.EveryStatusCounted | components/OperatorDashboard.tsx:58-59 | every order has one of the four statuses, so the two groups together count every order |
| OperatorDashboard.FilteredOrders | components/OperatorDashboard.tsx:70-77 | an order is listed exactly when it matches the status filter ('all' or its status) and the query is empty or a case-insensitive substring of its id, product name or buyer name; nothing is added |
| OperatorDashboard.UnfilteredIsIdentity | components/OperatorDashboard.tsx:70-77 | with 'all' and an empty query every order is listed, in order |
| OperatorDashboard.NextStatus | components/OperatorDashboard.tsx:106-111 | the flow has no successor exactly for 'delivered' |
| OperatorDashboard.AdvanceMovesForward | components/OperatorDashboard.tsx:105-116 | each advance moves exactly one step along pending → processing → shipped → delivered, and three advances take a pending order to delivered |
| OperatorDashboard.ActionsAgreeWithFlow | components/OperatorDashboard.tsx:329-337 | Advance is offered exactly when the flow has a next status; Release (processing or shipped) only where Advance and Refund are; a delivered order offers nothing; a pending one offers Refund but not Release |
| OperatorDashboard.Dashboard.constructor | components/OperatorDashboard.tsx:52-53 | nothing is being processed and no menu is open |
| OperatorDashboard.Dashboard.HandleReleaseEscrow | components/OperatorDashboard.tsx:79-90 | the release is requested, then the order is marked delivered unless the release threw; processing and the menu are cleared |
| OperatorDashboard.Dashboard.HandleRefund | components/OperatorDashboard.tsx:92-103 | the refund is requested and no status update is ever issued; processing and the menu are cleared |
| OperatorDashboard.Dashboard.HandleAdvanceStatus | components/OperatorDashboard.tsx:105-116 | issues exactly one update to the next status, one step further along the flow, or nothing for a delivered order; the menu closes |
| Analytics.OnDay | src/hooks/useAnalytics.ts:122-125 | the orders of one day are exactly those of the period whose day is that day |
| Analytics.DailyOrders | src/hooks/useAnalytics.ts:112-132 | one point per day to show (1, 7, 30 or 14 by period), oldest first and ending today, each holding that day's order count and summed total |
| Analytics.FindKey | src/hooks/useAnalytics.ts:137 | finds the entry of a key when there is one, and reports none only when no entry has that key |
| Analytics.GroupByKeys | src/hooks/useAnalytics.ts:135-143 | the grouping map has one entry per key occurring in the orders and no other key |
| Analytics.KeysUpdate | src/hooks/useAnalytics.ts:139-141 | `map.set` on a key already present changes no key and keeps keys distinct |
| Analytics.KeysAppend | src/hooks/useAnalytics.ts:139-141 | `map.set` on a new key adds exactly that key and keeps keys distinct |
| Analytics.GroupByCounts | src/hooks/useAnalytics.ts:135-143 | every entry of the grouping map holds the number of orders with its key and their summed total |
| Analytics.GroupByTotal | src/hooks/useAnalytics.ts:135-143 | the entries' order counts add up to the number of orders |
| Analytics.GroupOrders | src/hooks/useAnalytics.ts:135-143 | the forEach loop builds exactly the grouping map specified by insertion order |
| Analytics.InsertDesc | src/hooks/useAnalytics.ts:147 | inserting into a descending list keeps it descending and adds exactly the one entry |
| Analytics.ConsSorted | src/hooks/useAnalytics.ts:147 | a descending list stays descending under a head scoring at least as much as its first entry |
| Analytics.InsertBehind | src/hooks/useAnalytics.ts:147 | an entry scoring below the head goes behind it: the head in front of the insertion into the tail is descending and holds exactly the old entries plus the new one |
| Analytics.SortDesc | src/hooks/useAnalytics.ts:145-147 | the sort by descending score is a permutation of its input and is descending |
| Analytics.Top5 | src/hooks/useAnalytics.ts:148 | `slice(0, 5)` is a prefix of at most five entries, exactly five when there are that many, the whole list otherwise |
| Analytics.StateRows | src/hooks/useAnalytics.ts:157-158 | one row per entry, carrying its state and order count in order |
| Analytics.AverageOrderValue | src/hooks/useAnalytics.ts:96-98 | zero without orders, otherwise the value that times the count gives the total volume |
| Analytics.FulfillmentRate | src/hooks/useAnalytics.ts:163-164 | zero without orders, otherwise the delivered share in percent, and within 0 to 100 when delivered orders are among the orders |
| Analytics.Trend | src/hooks/useAnalytics.ts:170-179 | the percentage change against a positive previous value, 100 or 0 against none; positive exactly when the period grew, negative exactly when it shrank |
| Analytics.UseAnalytics | src/hooks/useAnalytics.ts:90-195 | every metric of the period: count, volume, average, the simulated rates in their ranges, breakdown, the daily series with each day's order count and volume, the top five products by revenue and states by orders, fulfillment rate within 0 to 100, and both trends |
| Analytics.BreakdownCoversPeriod | src/hooks/useAnalytics.ts:104-109 | the four status counts add up to the number of orders of the period |
| Analytics.TopListsAreRankedGroups | src/hooks/useAnalytics.ts:145-160 | a top list holds at most five groups, best first, each an entry of the grouping map with its true order count |
| AppCheckout.SetStepStatus | App.tsx:206-209 | the steps keep their order and length; exactly the steps with the given id take the new status, the others stay unchanged |
| AppCheckout.UpdateStep | App.tsx:205-210 | only the orders with the given id change, and in them only that step's status |
| AppCheckout.UpdateOrderStatus | App.tsx:164-167 | only the orders with the given id change, and only their status |
| AppCheckout.ApplyUpdates | App.tsx:212-245 | applying a list of step updates in order keeps the number of steps |
| AppCheckout.SetOneStep | App.tsx:42-48 | with the five initial step ids, setting step m's status changes position m only |
| AppCheckout.InitialStepsPending | App.tsx:42-48 | the initial steps are the five step ids in order, all pending |
| AppCheckout.SimEntry | App.tsx:212-245 | update k of the sequence sets step k / 2 to active at even k and to complete at odd k |
| AppCheckout.ExpectedStep | App.tsx:212-245 | update j moves only step (j - 1) / 2 on; every other step keeps its status |
| AppCheckout.ApplyOneMore | App.tsx:212-245 | applying one more update is setting that update's step status on the result of the ones before |
| AppCheckout.SimulationStep | App.tsx:212-245 | one more update of the sequence keeps every step at the status the sequence says it has reached |
| AppCheckout.SimulationPrefixFrom | App.tsx:212-245 | from five pending steps with the step ids, the first j updates of any list shaped like the sequence leave each step at its expected status |
| AppCheckout.SimulationPrefix | App.tsx:212-245 | after the first j of the ten updates, step i is complete, active or pending according to how far the sequence has gone |
| AppCheckout.SimulationRunsInOrder | App.tsx:212-245 | at every point of the sequence a step only leaves pending once all earlier steps are complete, and at the end all five are complete |
| AppCheckout.Base36Upper | App.tsx:248 | the base-36 rendering of a number is never empty |
| AppCheckout.TotalAmount | App.tsx:296 | the total is the price plus five percent, and zero without a product or price |
| AppCheckout.OrderNumber | App.tsx:314 | the random order number has four digits, 1000 to 9999 |
| AppCheckout.OrderId | App.tsx:314 | the order id is DEMO- or ST- by mode, followed by that number |
| AppCheckout.NewOrder | App.tsx:331-345 | the new order has the generated id, status processing, the five initial steps, the total, the shipping address, the demo flag, and no tracking number or carrier |
| AppCheckout.SuccessTrace | App.tsx:296-420 | a successful checkout checks the balance, requests the escrow, and ends by starting fulfillment; it posts to the order API exactly when not in demo mode |
| AppCheckout.App.constructor | App.tsx:77 | starts with the given orders, no effects and no transaction in progress |
| AppCheckout.App.HandleUpdateOrderStatus | App.tsx:164-167 | the orders become the status update of the old orders; nothing else changes |
| AppCheckout.App.RunFulfillmentSim | App.tsx:204-279 | the matching orders end with the ten step updates applied, status shipped, a TK tracking number and carrier USPS; other orders are unchanged |
| AppCheckout.App.PlaceOrder | App.tsx:331-420 | the new order goes to the front of the list and the effects are the order API call (not in demo mode), the save, the e-mail when an address was given, and the fulfillment start |
| AppCheckout.App.HandleFinalCheckout | App.tsx:282-425 | missing shipping details or wallet stop with nothing done; an insufficient balance records only the balance check and stops before any escrow request; a failed escrow records the balance check, the escrow request and its error, adds no order and ends processing; an order is placed exactly when the balance suffices and the escrow locked, and then the list and effects are as above and processing has ended |
| ProductPages.RunFrom | api/verify-product.ts:9 | the greedy run a regular-expression quantifier captures: every character in it satisfies the class and the next one does not |
| ProductPages.ProductMatch | api/verify-product.ts:9 | finds the leftmost position where `/product/` followed by a digit occurs, and reports none only when there is no such position |
| ProductPages.ProductIdInPath | api/verify-product.ts:7-10 | no capture exactly when the url has no `/product/<digit>`; otherwise the capture is the whole non-empty digit run after the leftmost such match |
| ProductPages.HandleMatch | api/verify-product.ts:22 | finds the leftmost `@` not followed by `/`, and none only when there is none |
| ProductPages.SellerHandle | api/verify-product.ts:21-24 | no handle exactly when no `@` is followed by something other than `/`; otherwise the handle is the non-empty text after the leftmost such `@` up to the next `/` or the end |
| ProductPages.DollarMatch | api/verify-product.ts:40 | finds the leftmost `$` followed by a digit, and none only when there is none |
| ProductPages.AmountAt | api/verify-product.ts:40-42 | the parsed price is never negative |
| ProductPages.DollarAmount | api/verify-product.ts:40-42 | no price exactly when the title has no `$<digit>`; otherwise the amount at the leftmost match, never negative |
| ProductPages.DollarsAndCents | api/verify-product.ts:40-42 | "Tee $12.50" yields 12.5 |
| ProductPages.TeeDollarAt | api/verify-product.ts:40 | the leftmost `$` followed by a digit in "Tee $12.50" is at position 4 |
| ProductPages.TeeDigits | api/verify-product.ts:40-42 | in "Tee $12.50" the dollar run is `12` and the cents are `50` |
| ProductPages.CentsNeedTwoDigits | api/verify-product.ts:40-42 | "Tee $7.5" yields 7, the cents group needing exactly two digits |
| ProductPages.PlaceholderImage | api/scrape-tiktok.ts:143 | the placeholder address is the fixed base followed by the percent-encoded caption |
| ProductPages.ClockId | api/scrape-tiktok.ts:140 | the clock identifier starts with `tiktok-` and has digits after it |
| VerifyProductApi.QueryOf | api/verify-product.ts:13-14 | the query is no longer than the url and holds no fragment |
| VerifyProductApi.SearchParam | api/verify-product.ts:14 | a found value is no longer than the query it was read from |
| VerifyProductApi.FirstPairWins | api/verify-product.ts:14 | when the query starts with `name=value`, the lookup of that name gives that value whatever follows |
| VerifyProductApi.ExtractProductIdAsWritten | api/verify-product.ts:7-18 | a `/product/<digits>` capture wins; it throws exactly when there is no such capture and the url has no scheme; a returned id is never empty |
| VerifyProductApi.SchemelessUrlPassesGuards | api/verify-product.ts:137-147 | the scheme-less url `tiktok.com/@shop` passes the `tiktok.com` guard and names no test product |
| VerifyProductApi.SchemelessUrlThrows | api/verify-product.ts:13 | the extractor as written throws on that url |
| VerifyProductApi.SchemelessNamesNoProduct | api/verify-product.ts:9 | `tiktok.com/@shop` has no `/product/<digit>` |
| VerifyProductApi.SchemelessHasNoScheme | api/verify-product.ts:13 | `tiktok.com/@shop` does not start with a url scheme, so `new URL` rejects it |
| VerifyProductApi.ExtractProductId | api/verify-product.ts:7-18 | agrees with the extractor as written wherever it does not throw, gives no id where it throws, and keeps the path capture |
| VerifyProductApi.CorrectedExtractor | api/verify-product.ts:7-18 | never throws and returns exactly the corrected extraction |
| VerifyProductApi.SchemelessExtractsNothing | api/verify-product.ts:13 | the corrected extractor gives no id for the scheme-less url |
| VerifyProductApi.SchemelessHandle | api/verify-product.ts:21-24 | the seller handle of the scheme-less url is `shop` |
| VerifyProductApi.RepairedPrice | api/verify-product.ts:36-48 | a positive price is kept; otherwise the title's first dollar amount; otherwise 19.99; never negative |
| VerifyProductApi.TitleImage | api/verify-product.ts:58-59 | the title's placeholder image starts with the fixed placeholder base |
| VerifyProductApi.RepairIdentity | api/verify-product.ts:31-53 | the id is kept unless missing or `unknown`, then the extracted id or a clock id; the price follows the price rule; the seller is kept unless missing or `Unknown`, then the url handle or "TikTok Shop Seller"; none of them is empty |
| VerifyProductApi.RepairListing | api/verify-product.ts:55-79 | an image that is missing or holds `undefined` becomes the title's placeholder; a missing category becomes "TikTok Shop"; a rating outside (0, 5] becomes 4.5; a non-positive inventory becomes 100 |
| VerifyProductApi.ValidateProduct | api/verify-product.ts:27-82 | the result obeys the repair rules: it is well formed (id, seller, category, image present; price non-negative; rating in (0, 5]; inventory positive), the title is kept, and each other field is kept when present and valid and otherwise replaced by its stated default, both cases of each rule stated; it is the one record `Repaired` builds |
| VerifyProductApi.RepairedObeysRules | api/verify-product.ts:27-82 | the record built field by field obeys every repair rule |
| VerifyProductApi.RepairIsUnique | api/verify-product.ts:27-82 | the repair rules determine the record: any record obeying them is the one built |
| VerifyProductApi.CatalogueMatch | api/verify-product.ts:142-147 | the first test product whose key the url contains, and none only when it contains no key |
| VerifyProductApi.CatalogueIsWellFormed | api/verify-product.ts:85-116 | every test product is well formed with a positive price |
| VerifyProductApi.BasicProduct | api/verify-product.ts:206-220 | the description built on a parse failure has an id, price 0 and no image, so that repair supplies them |
| VerifyProductApi.GeneratedRaw | api/verify-product.ts:202-220 | the description handed to repair is the parsed one, or after a parse failure the basic one, which always has a title and an id |
| VerifyProductApi.GeneratedResponse | api/verify-product.ts:222-255 | once the generation step returned, the answer is a well-formed product that carries no error exactly when the description's title is not empty (the repaired description), and is otherwise the fallback product with "Could not extract product information" |
| VerifyProductApi.FallbackProduct | api/verify-product.ts:237-252 | the fallback product is well formed, priced 19.99, and keeps the extracted id |
| VerifyProductApi.HandleVerifyProduct | api/verify-product.ts:118-257 | preflight, 405, 400 for a missing or non-TikTok url; a test product by the first key; a throwing extractor yields a 500 when no test product matched; otherwise a throwing generation step gives the fallback product with its message, and a returning one gives exactly the repaired description, or the fallback product with "Could not extract product information" when its title is empty |
| VerifyProductApi.LookupCatalogue | api/verify-product.ts:142-147 | the loop over the test products stops at the first key the url contains |
| VerifyProductApi.TryDescribe | api/verify-product.ts:149-233 | a generation that throws gives its message; a throwing extractor gives its error; otherwise the description (parsed, or the basic one) repaired by `validateProduct`, or the error "Could not extract product information" when its title is empty |
| VerifyProductApi.DescribeProduct | api/verify-product.ts:149-256 | a throwing extractor gives a 500; a throwing generation step gives the fallback product with its message; a returning one gives exactly the repaired description, or the fallback product with "Could not extract product information" when its title is empty |
| VerifyProductApi.SchemelessRequestAsWritten | api/verify-product.ts:234-238 | as written, the scheme-less url with a failing generation step ends in an unhandled 500 |
| VerifyProductApi.ThrowingRequestAsWritten | api/verify-product.ts:234-238 | as written, any url past the guards that names no test product and makes the extractor throw ends in a 500 when generation fails |
| VerifyProductApi.HandleVerifyProductCorrected | api/verify-product.ts:118-257 | with the corrected extractor every request past the guards gets a product and 200, and never a crash; with no test product matched, a throwing generation step gives the fallback product for the corrected id and a returning one the repaired description for that id |
| ScrapeTiktokApi.Assemble | api/scrape-tiktok.ts:139-150 | the product keeps every field the page yielded and otherwise takes its default (19.99, 4.5, placeholder image, handle-based title and seller); it is marked a fallback exactly when title or price is missing |
| ScrapeTiktokApi.ErrorAnswer | api/scrape-tiktok.ts:162-173 | the catch answer is a fallback, not scraped, carries an error, 19.99, 4.5, inventory 100, and has an id and seller |
| ScrapeTiktokApi.RunSession | api/scrape-tiktok.ts:42-173 | a session that extracted gives the assembled product, any throw gives the catch answer; a browser is launched unless the launch threw and is closed in every case, a second time when closing threw |
| ScrapeTiktokApi.HandleScrape | api/scrape-tiktok.ts:17-175 | preflight, 405 and 400 guards launch no browser; past them the answer is the assembled product when the session succeeded and the catch answer otherwise; a launched browser is always closed |
| Landing.PrefixOccurs | src/pages/Landing.tsx:36 | text that starts at some position occurs in the string |
| Landing.ShopUrlNamesTikTok | src/pages/Landing.tsx:36-37 | every link the page accepts names `tiktok.com`, ignoring case, so it also passes the endpoints' `tiktok.com` guard once lower-cased |
| Landing.ToLowerIdempotent | src/pages/Landing.tsx:66 | lower-casing twice is lower-casing once |
| Landing.ShopUrlIgnoresCase | src/pages/Landing.tsx:36 | the link check gives the same answer on a link and on its lower-cased form, as the `i` flag promises |
| Landing.FirstRule | src/pages/Landing.tsx:67-87 | the first rule that matches the message, and none only when no rule matches |
| Landing.AnyOfOne | src/pages/Landing.tsx:83 | a one-phrase clause holds exactly when the message contains that phrase |
| Landing.AnyOfTwo | src/pages/Landing.tsx:67 | a two-phrase clause holds exactly when the message contains either phrase |
| Landing.TwoClauses | src/pages/Landing.tsx:69 | a two-clause rule matches exactly when both clauses hold |
| Landing.OneClause | src/pages/Landing.tsx:67 | a one-clause rule matches exactly when its clause holds |
| Landing.RulesMeaning | src/pages/Landing.tsx:67-84 | each of the eight rules matches exactly when the message contains the phrases that branch of the chain tests |
| Landing.ClassifyByRules | src/pages/Landing.tsx:63-88 | an empty message gives the default text; otherwise the first matching rule decides the text and whether manual entry is offered; a message no rule matches is shown as it is |
| Landing.ClassifiedMessageIsNonEmpty | src/pages/Landing.tsx:63-88 | the page never shows an empty error message |
| Landing.LandingPage.constructor | src/pages/Landing.tsx:18-24 | an empty link, no product, nothing loading or open, no error |
| Landing.LandingPage.HandleVerifyProduct | src/pages/Landing.tsx:29-96 | a blank link or one that fails the check shows its error and looks nothing up; otherwise the link is looked up once and the result received; loading always ends |
| Landing.LandingPage.ReceiveLookup | src/pages/Landing.tsx:44-95 | an accepted product is kept with a success toast; a product asking for manual entry opens the form; anything else clears the product and shows the classified message, scheduling manual entry when the rule offers it |
| Landing.LandingPage.HandleCheckout | src/pages/Landing.tsx:109-118 | the checkout opens exactly when a product is verified and the wallet is connected; without a wallet the page says so; nothing else changes |
| Landing.LandingPage.HandleClearProduct | src/pages/Landing.tsx:103-107 | product, link and error are cleared; nothing else changes |
| Landing.LandingPage.HandleCheckoutComplete | src/pages/Landing.tsx:124-129 | the checkout closes, product and link are cleared, and the success toast is shown; nothing else changes |
| ExtensionBackground.PushBounded | extension/src/background.js:41-44 | the saved order comes first, followed by the previous history, dropping the oldest when more than fifty |
| ExtensionBackground.Reverse | extension/src/background.js:41-42 | the reversal of a list of orders, position by position |
| ExtensionBackground.SaveAllKeepsNewest | extension/src/background.js:40-48 | saving orders one after another keeps the fifty newest, newest first |
| ExtensionBackground.Background.StoredOrders | extension/src/background.js:52-56 | without a stored history the orders are empty |
| ExtensionBackground.Background.constructor | extension/src/background.js:4 | no current product, and storage as found, which holds only a product and a bounded history |
| ExtensionBackground.Background.OnMessage | extension/src/background.js:10-57 | each message's exact effect on the product slot and storage and its reply; a saved order goes to the front of the history, which never exceeds fifty; unknown messages change nothing and get no reply |
| Bytes.LittleEndian | src/services/escrowService.ts:94 | a fixed-width little-endian encoding has exactly the requested width |
| Bytes.FromLittleEndianInverse | src/services/escrowService.ts:215 | reading back a little-endian encoding of a value that fits gives the value |
| Text.IndexOf | api/verify-product.ts:137 | `includes` finds the first occurrence, and none only when the text does not occur anywhere |
| Text.NatToStringValue | api/scrape-tiktok.ts:140 | the decimal rendering of a number reads back as that number |
| Text.EncodeUriComponent | api/scrape-tiktok.ts:143 | the encoding is at least as long as its input and made of unreserved characters and `%` escapes only |
| Text.EncodeKeepsUnreserved | api/scrape-tiktok.ts:143 | text made only of unreserved characters is left unchanged by the encoding |

## Left out

- Program-address derivation (SHA-256 and the off-curve search) and associated-token-address derivation: a deterministic function parameter of the seed list stands for them.
- Token transfers between accounts are abstract balance moves. Anchor's account constraints are modelled as checks that return the program's errors (`EscrowProgram.CreateAccountsError`, `EscrowProgram.ReleaseAccountsError`); only Anchor's own deserialization of the accounts is not modelled.
- Rent, lamport funding of new accounts and base58 rendering of keys: they carry no protocol logic.
- The vault address of `src/services/escrowService.ts:44-49` is modelled only as a seed list the program never uses; nothing in the program derives it.
- EscrowHook.EscrowHook.GetEscrowStatus: a failing `getAccountInfo` RPC call, the base58 rendering of the buyer and an invalid `Date` for a creation time beyond the `Date` range are not modelled.
- Program-address derivation that finds no viable bump is not modelled; the derivation function is total.
- The create-escrow instruction tag is the placeholder bytes 0 to 7 as written, not the program's real Anchor discriminator.
- Solana RPC, wallet signing, Supabase, Vercel KV, Gemini, Puppeteer page scripts and the e-mail service: their outcomes are parameters of the methods that await them.
- The text extraction of JSON from Gemini's answer in `api/verify-product.ts:184-205`: the generation outcome is given as thrown, unparseable or parsed.
- Floating point: JavaScript numbers are exact reals, so `price * 1.05`, `Math.floor(x * 1e6)` undershooting, `NaN` beyond the `Number(..)` checks, and `toFixed` display are not reproduced.
- DemoMode.UrlHash: computed in exact integers. JavaScript's accumulator grows by at most 2^31 + 2^16 per character, so the two agree for urls shorter than about four million characters, below 2^53.
- Dates and time: the period filtering of `src/hooks/useAnalytics.ts:39-88`, locale timestamps and date labels are outside the model; the caller supplies the period's orders and each order's day.
- `Date.now()` and `Math.random()` are parameters (a natural number and reals in [0, 1)).
- All `setTimeout` delays; Landing's delayed opening of manual entry is a flag that a timer is scheduled.
- Concurrency: React state batching, stale closures, realtime-subscription lifecycle, storage-callback interleaving in the extension and multi-tab races. Every handler runs to completion before the next.
- AppCheckout.App.RunFulfillmentSim: the shipped e-mail sent after the sequence reads the order from a stale closure and is not modelled.
- Order-id collisions: `api/create-order.ts:100` draws an id from only 9000 values, so two orders can draw the same id; the later write to `order:<id>` or to the in-memory map then replaces the earlier order. The model keeps this overwrite and proves nothing that excludes it.
- AppCheckout.App.HandleFinalCheckout: a save of the order that throws is taken to succeed; the buyer number and celebration modal are display only.
- The operator login handler duplicated in `App.tsx` is not modelled; the operator context is.
- The 500 answer of `api/create-order.ts` for a throw outside storage is unreachable in the model, since storage failures are caught.
- `exportOrders` in `src/hooks/useOrderStorage.ts` (Blob and DOM download) and the FileReader error path of import.
- Analytics.SortDesc: stability of JavaScript's sort among equal scores is not stated.
- Text.ToLower: ASCII letters only, which is exact for the case-insensitive regular expression of the landing page but not for Unicode text elsewhere.
- Text.Utf8: strings are sequences of code points; UTF-16 surrogate pairs and `slice(0, 20)` cutting a pair are not modelled.
- VerifyProductApi.HasUrlScheme: `new URL` is modelled as failing exactly when the url has no scheme; host validation and leading-whitespace stripping are not modelled.
- VerifyProductApi.SearchParam: percent- and `+`-decoding of the query value is not modelled.
- ScrapeTiktokApi.HandleScrape: a request body whose url is truthy but not a string is not modelled; a second browser close in the catch block is taken to succeed.
- Landing's `handleRetryVerification` and `handleCheckoutClose` only reset a field and call the modelled handler.
- EscrowHook.EscrowHook.CreateEscrow: a throwing status-update callback is not modelled.
- The landing page's link check is case-insensitive while the endpoints' `tiktok.com` guard is case-sensitive; Landing.ShopUrlNamesTikTok states the relation on the lower-cased link only.
- UI rendering, the extension's content script and popup, and the `components/*.tsx` files beyond the operator dashboard logic.

## Findings

| source | as written | input that shows it | evidently intended | confidence | as-written member | corrected member |
|---|---|---|---|---|---|---|
| api/order-status.ts:4 | the status endpoint keeps its own empty in-memory map, so it never sees the orders that `api/create-order.ts` put in its in-memory fallback map | without KV, POST a valid order to create-order, then GET order-status with the returned id: 404 | both endpoints share one in-memory store, so a created order is found | not executed | OrderStatusApi.CreatedOrderLostAsWritten | OrderStatusApi.CreatedOrderIsFound |
| api/verify-product.ts:13 | `extractProductId` calls `new URL(url)`, which throws on a url without a scheme; the `catch` block calls it again and the request fails with an unhandled error | POST `{"url": "tiktok.com/@shop"}` when the generation step fails: 500 instead of the fallback product | a url without a scheme yields no product id, and the request gets the 200 fallback product | not executed | VerifyProductApi.SchemelessRequestAsWritten | VerifyProductApi.HandleVerifyProductCorrected |
