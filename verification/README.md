# Green Garden API: verified model

The shop behind this API sells plants. A checkout locks plant rows, prices the cart, allocates a daily order
number and commits everything or nothing. Bank transfers are matched to orders from free text. A chat assistant's
streamed answer is filtered so that leaked tool-call markup never reaches a shopper. Plants keep the slugs they once
had, and a vector store mirrors the texts of the active plants. This project models that behaviour in Dafny and proves what it keeps.

`dafny verify dfyconfig.toml` checks the whole project.

## Files

| file | models |
|---|---|
| `MarkupGuard.dfy` | the markup patterns, the whole-text strip, the streaming guard and a streamed round |
| `Orders.dfy` | pricing, `create_order`, status changes, the order service object |
| `OrderRules.dfy` | what pricing, checkout and status changes keep, over serial runs |
| `OrderNumbers.dfy` | the daily order numbers and the dash-free payment reference |
| `CheckoutProtocol.dfy` | concurrent calls as small steps over committed tables, row locks and the number lock |
| `CheckoutRuns.dfy` | every interleaving: what it amounts to serially, refusals, no deadlock, termination, conservation, and where it fails |
| `Payments.dfy` | reference extraction, webhook settlement, transfer instructions |
| `SettlementRuns.dfy` | concurrent webhook deliveries as small steps over the unique transaction id and order row locks |
| `SlugHistory.dfy` | live slugs and slug history |
| `TextRules.dfy` | LIKE escaping and search, slug and phone normalization |
| `PhoneLimit.dfy` | the hourly checkout limit per phone |
| `KnowledgeIndex.dfy` | chunk keys and the mirrored store |
| `Overview.dfy` | the dashboard's order statistics |
| `Characters.dfy`, `Wrappers.dfy` | shared text primitives, optional values and results |

## How to read it

Money is a whole number of cents, so `_quantize` is the identity on every amount that arises. Identifiers are natural
numbers, ordered as the database orders them. Clocks, new row ids and the day used for an order number are parameters.

An operation the source writes as a loop or as updates of an object is a method, proved equal to a function of its
inputs or of the old state; the lemmas are about those functions.

A concurrent call is a transaction of small steps: start (which fixes the ids of the rows its locking query selects), lock one plant and read it, decide, take the advisory
lock and read the committed numbers, commit and release. A commit writes the stock computed from the row as it was read under the lock, as the ORM does, so
that nothing but the locks protects it. Any transaction may abort at any moment. Admin edits and additions of plants are single steps; an
edit needs its row unlocked. Each statement reads the latest committed rows (READ COMMITTED).
A webhook delivery inserts its log row (waiting while another delivery of that id is uncommitted), runs its query, locks the order found, decides,
and commits row and order together.

Where the code does not do what its own words promise, the code is modelled and the exact condition is proved:

- The comment on `_restore_stock` says an order can never be restocked twice. Row locks are taken on plants, not on the
  order, so two overlapping cancellations of one order both restock it (`OverlapRestocksTwice`). A committing status change is the
  `update_order_status` call of that moment exactly when the change is still allowed or changes nothing (`StatusCommitIsCall`), and keeps the
  books exactly when the order is not cancelled already (`StatusCommitConserves`). Over every run, concurrent or serial, the books are
  off by exactly the status writes on cancelled orders (`EveryRunAccounts`, `RunAccounts`). Without overlapping status changes on one order
  every interleaving is its committed calls one after the other (`RunIsCalls`) and the promise holds (`StockConserved`, `RestockedOnce`).
- A checkout that was told a plant is missing is refused even if the plant was added after the locking query began
  (`LatePlantIsRefused`). Its refusal is the atomic call's at the decision exactly when not all missing plants were added meanwhile
  (`RefusalIsAtomic`), and always the atomic call's at one of the two moments (`RefusedAtSomeMoment`).
- The marker pattern accepts U+017F as an s and the partial pattern does not. However a text is cut, the guard emits the stripped text, or
  more of it exactly when a cut falls inside the first marker behind its U+017F; then that marker is let through (`RoundIsExact`). After any
  chunks it has emitted exactly what no later chunk can turn into a marker, if and only if no cut fell there and the text does not end in an
  unfinished marker with U+017F (`EmitsLongestSafePrefix`). For every cut of a text this holds if and only if no U+017F spells its first marker or an
  unfinished one at its end (`EveryCutIsStripped`, `EveryCutEmitsSafePrefix`). `<|d` and U+017F, then `ml`, is such a text (`LongSReleased`).
- A transfer that overtakes its order is logged as unmatched: when the query ran, the order was not committed (`OvertakingTransfer`,
  `OvertakingHappens`). A committing delivery is the atomic call of that moment exactly when the order its query found is still the one its payload
  resolves to (`CommitIsSettle`); in every interleaving that places no such order, deliveries are atomic (`SettlementSerializable`).
  The ledger invariant holds in every interleaving (`LedgerHoldsInterleaved`).
- A payment reference is found in free text if and only if its daily sequence is at most 9999
  (`ExtractedExactlyUpTo9999`). With five digits the pattern finds the reference of another order
  (`FiveDigitsNameAnotherOrder`).
- Following the transfer instructions pays the order if and only if its total is a whole number of VND
  (`FollowTheInstructions`), because the amount shown is rounded and the match is exact. A cancelled order can be paid too: the webhook does not read the status.
- A shopper who waits exactly the stated `Retry-After` is still refused if and only if a positive whole number of
  seconds was left (`WaitingAsTold`).
- The project's README says that exactly 500,000 VND still pays shipping. The code waives the fee from 500,000 VND on,
  and so does the model.

## Model

| member | source | states |
|---|---|---|
| MarkupGuard.AutomatonIsMarker | app/features/chat/dsml.py:25 | The finite automaton accepts exactly the texts that the marker pattern matches at their start |
| MarkupGuard.AutomatonIsPartial | app/features/chat/dsml.py:28-29 | On a text that does not start with a marker, the partial pattern with its word test holds exactly when the automaton without U+017F is still live |
| MarkupGuard.MarkerStart | app/features/chat/dsml.py:68-73 | The leftmost position where the marker pattern matches, or the length of the text when it matches nowhere |
| MarkupGuard.LastOpening | app/features/chat/dsml.py:126-128 | The last `<` of the text, or the length of the text when there is none |
| MarkupGuard.FeedExtends | app/features/chat/dsml.py:155-172 | One `feed` takes the state and output that belong to the text so far to those of the text with the chunk added, unless the cut falls inside the first marker behind its U+017F |
| MarkupGuard.NothingLost | app/features/chat/dsml.py:138-176 | For every list of chunks, emitted, captured and withheld text together are the text, in this order |
| MarkupGuard.RoundIsExact | app/features/chat/dsml.py:138-176 | For every list of chunks: at least the stripped text is emitted and the rest captured; more is emitted, and markup is let through, if and only if a cut falls inside the first marker behind its U+017F |
| MarkupGuard.PlainTextIsStripped | app/features/chat/dsml.py:138-176 | For every list of chunks whose joined text has no U+017F in its first marker, everything emitted is the stripped text and everything captured is the remainder |
| MarkupGuard.StripLeavesNoMarkup | app/features/chat/dsml.py:64-73 | Stripping changes a text if and only if it contains markup, leaves none, and is idempotent |
| MarkupGuard.EveryCutIsStripped | app/features/chat/dsml.py:22-29 | Every cut of a text streams to the stripped text, and no cut lets markup through, each if and only if its first marker is not spelled with U+017F |
| MarkupGuard.LongSLeaks | app/features/chat/dsml.py:25-29 | For every text whose first marker is spelled with U+017F, a cut for which the guard emits that marker |
| MarkupGuard.HeldCanBecomeMarker | app/features/chat/dsml.py:125-135 | In a text without marker, a withheld suffix has a continuation that makes it the first marker |
| MarkupGuard.SafeLengthIsExact | app/features/chat/dsml.py:125-135 | A prefix of a text is safe from every continuation if and only if it ends before the first marker or, without one, before an unfinished marker at the end, U+017F read as an s |
| MarkupGuard.EmitsLongestSafePrefix | app/features/chat/dsml.py:155-172 | For every list of chunks: what the guard has emitted is exactly the longest safe prefix, if and only if no cut fell inside the first marker behind its U+017F and the text does not end in an unfinished marker with U+017F |
| MarkupGuard.EveryCutEmitsSafePrefix | app/features/chat/dsml.py:155-172 | For every text: each of its cuts makes the guard emit exactly the longest safe prefix, if and only if no U+017F spells its first marker or an unfinished marker at its end |
| MarkupGuard.LongSReleased | app/features/chat/dsml.py:25-29 | The guard fed `<` bar `d` U+017F emits it whole, although a following `ml` makes all of it a marker; fed both chunks, it emits the whole marker |
| MarkupGuard.DsmlStreamGuard.FeedChunk | app/features/chat/dsml.py:155-172 | The new fields and the output are those of the specification function, in the capturing, the marker, the hold and the pass-through case |
| MarkupGuard.DsmlStreamGuard.FinishStream | app/features/chat/dsml.py:174-176 | Releases the withheld text unless the guard is capturing |
| MarkupGuard.StreamRound | app/features/chat/deepseek.py:223-266 | A round with a new guard and empty deltas skipped: text plus captured markup is all that was streamed, the text holds at least the stripped text, is more exactly when it contains markup, and then the first marker has U+017F |
| OrderNumbers.Pad4Faithful | app/features/orders/service.py:251-254 | The padded sequence keeps its value, and has four digits if and only if it is at most 9999 |
| OrderNumbers.NumberInjective | app/features/orders/service.py:244-254 | Order numbers of two days and sequences are equal only if both are; a number carries the day prefix of its own day only |
| OrderNumbers.ReferenceInjective | app/features/orders/service.py:237-239 | No two orders share a payment reference, past 9999 orders a day included |
| OrderNumbers.NextSequence | app/features/orders/service.py:249-254 | With n numbers taken, the search ends with a free sequence between n + 1 and 2n + 1 |
| OrderNumbers.DenseNext | app/features/orders/service.py:251-254 | If the taken sequences are 1 to n, the next one is n + 1 and they are 1 to n + 1 afterwards |
| OrderNumbers.GenerateOrderNumber | app/features/orders/service.py:242-254 | The loop returns the number of the specified sequence, which no committed order has |
| Orders.PriceOrder | app/features/orders/service.py:194-234 | The loop computes each line's price or error, the subtotal over sellable lines, the fee (none without a sellable line) and the total |
| Orders.OrderService.QuoteOrder | app/features/orders/service.py:271-289 | Quotes what pricing gives on the whole catalogue, changing nothing |
| Orders.OrderService.CheckLines | app/features/orders/service.py:406-433 | Unknown plants, inactive plants and stock in dictionary order, missing prices and the total limit, in that order of precedence |
| Orders.OrderService.CreateOrder | app/features/orders/service.py:372-487 | Either the tables become those of the atomic specification and the new order is returned, or the specified error is and nothing changed |
| Orders.OrderService.RestoreStock | app/features/orders/service.py:503-526 | Every plant of the order gets its summed quantity back, every other row is untouched |
| Orders.OrderService.UpdateOrderStatus | app/features/orders/service.py:529-556 | Not found, same status, forbidden change, plain change and cancellation with restock, each with its whole effect |
| OrderRules.TopUpIsLeast | app/features/orders/service.py:182-191 | An extra amount makes delivery free if and only if it is at least the stated top-up |
| OrderRules.SubtotalDependsOnTotals | app/features/orders/service.py:206-226 | The subtotal depends on the lines only through the quantity requested of each plant |
| OrderRules.CheckMeaning | app/features/orders/service.py:406-433 | A checkout passes if and only if every requested plant is active, priced and in stock for its summed quantity and the total fits |
| OrderRules.FirstSeenInOrder | app/features/orders/service.py:411-415 | The plants are checked in the order of their first lines |
| OrderRules.RefusalReason | app/features/orders/service.py:408-433 | Exactly when each of the four errors is given: a missing plant; the first failing plant in line order short of stock, or inactive; a plant without price; a total over the limit |
| OrderRules.OutcomeDependsOnTotals | app/features/orders/service.py:411-470 | Permuting, splitting or merging lines changes neither success, nor the amounts, nor the number, nor the stock effect |
| OrderRules.PlacedOrderContents | app/features/orders/service.py:436-467 | Every stored line has the requested plant and quantity, the catalogue price and the snapshot name; the order is pending and unpaid |
| OrderRules.QuoteIsCharged | app/features/orders/service.py:271-289 | A successful order charges what was quoted, and so do its stored lines, as long as no requested plant changed its price, active flag or existence |
| OrderRules.PlaceKeepsOk | app/features/orders/service.py:406-482 | Placing an order keeps stock non-negative, numbers distinct, and every stored total equal to its line snapshots plus the fee |
| OrderRules.OrdersStayOk | app/features/orders/service.py:1-16 | Catalogue changes never invalidate a stored order |
| OrderRules.PlaceKeepsDense | app/features/orders/service.py:242-254 | If every day's sequences are exactly 1 to n, they are so after one more order, which got the next number |
| OrderRules.PlaceConserves | app/features/orders/service.py:411-470 | Stock plus the quantity on standing orders is the same for every plant before and after an order |
| OrderRules.StatusWriteConserves | app/features/orders/service.py:503-550 | A status write changes that sum by nothing, or, if the order was cancelled already, by the order's quantity |
| OrderRules.RunAccounts | app/features/orders/service.py:503-526 | Over every serial run, stock plus standing orders changes by the recorded admin edits plus exactly what status writes on cancelled orders count twice |
| OrderRules.TransitionsGoForward | app/features/orders/service.py:490-500 | A change of status is allowed if and only if it lowers the number of changes the order can still see |
| OrderRules.CallDoes | app/features/orders/service.py:529-550 | A recorded operation does what the call of the service does if and only if it is no status write, one the call would make now, or one that changes nothing |
| OrderRules.TimelyRunIsCalls | app/features/orders/service.py:529-550 | A serial run whose status writes are all ones the call would make is the run of the calls, which all succeed |
| OrderRules.OrderHistory | app/features/orders/service.py:503-556 | Over every serial run, each order is restocked once if it ends up cancelled and never otherwise, and changes status at most four times |
| CheckoutProtocol.CheckoutCommitIsAtomic | app/features/orders/service.py:257-268 | In every consistent state, a committing checkout has exactly the effect of an atomic `create_order` on the tables of that moment |
| CheckoutProtocol.StatusCommitIsAtomic | app/features/orders/service.py:529-550 | A committing status change has exactly the effect of one status write with its restock on the tables of that moment |
| CheckoutProtocol.StepRefines | app/features/orders/service.py:372-486 | Every step changes the tables as its atomic operation does; steps and aborts without one change nothing |
| CheckoutRuns.NextKeepsOk | app/features/orders/service.py:257-268 | Every step keeps that locked rows are the committed rows, each lock has one holder, and a drawn number is still the next one |
| CheckoutRuns.InitialIsFresh | app/features/orders/service.py:362-369 | A system in which no call has begun meets the assumptions of every run result here, the status-change ones included |
| CheckoutRuns.Serializable | app/features/orders/service.py:1-16 | Every interleaving of any number of calls and admin edits leaves the tables as the committed orders, status writes and admin edits do one after the other, in commit order |
| CheckoutRuns.RunIsCalls | app/features/orders/service.py:1-16 | In every interleaving without overlapping status changes on one order, those are the `create_order`, `update_order_status` and admin calls, run one after the other and all successful |
| CheckoutRuns.StatusCommitIsCall | app/features/orders/service.py:539-550 | A committing status change is the `update_order_status` call of that moment if and only if the change is still allowed then, or changes nothing |
| CheckoutRuns.TablesStayOk | app/features/orders/service.py:13-15 | No interleaving oversells a plant, reuses a number or stores amounts that do not add up |
| CheckoutRuns.NumbersStayDense | app/features/orders/service.py:242-254 | In every interleaving the sequences of a day stay exactly 1 to n |
| CheckoutRuns.RefusalIsAtomic | app/features/orders/service.py:408-433 | A checkout refused at its decision gets the error the atomic call would give then, if and only if not all plants missing from its locking query were added meanwhile |
| CheckoutRuns.ConstraintRefusalIsAtomic | app/features/orders/service.py:460-482 | A checkout refused by a check constraint at commit is refused alike by the atomic call |
| CheckoutRuns.RefusedAtSomeMoment | app/features/orders/service.py:257-268 | In every interleaving, a refusal at the decision is the one the atomic call gives then or gave when the locking query began |
| CheckoutRuns.LatePlantIsRefused | app/features/orders/service.py:406-409 | A run in which a plant added after the locking query began is refused as unknown although the atomic call would sell it |
| CheckoutRuns.NoDeadlock | app/features/orders/service.py:257-268 | In every consistent state with an unfinished call, some call can take its next step |
| CheckoutRuns.StepShrinks | app/features/orders/service.py:372-487 | Every step or abort of a transaction shrinks a well-founded measure; admin steps leave it alone |
| CheckoutRuns.EveryScheduleFinishes | app/features/orders/service.py:257-268 | Whatever enabled step of the unfinished calls a scheduler picks each time, the run it makes finishes every call |
| CheckoutRuns.OnlyAdminStepsForever | app/features/orders/service.py:257-268 | In every infinite run, admin steps in between or not, only admin steps occur from some point on |
| CheckoutRuns.FairRunsFinish | app/features/orders/service.py:257-268 | Every infinite run that gives a call its turn when its next step stays possible finishes every call |
| CheckoutRuns.EveryRunAccounts | app/features/orders/service.py:503-526 | In every interleaving at all, stock plus standing orders changes by the recorded admin edits plus exactly what status writes on cancelled orders count twice |
| CheckoutRuns.StockConserved | app/features/orders/service.py:503-526 | In every interleaving without overlapping status changes on one order, stock plus standing orders changes only by recorded admin edits |
| CheckoutRuns.RestockedOnce | app/features/orders/service.py:507-509 | In every such interleaving an order is restocked exactly once if it gets cancelled, never otherwise, and changes status at most four times |
| CheckoutRuns.StatusCommitConserves | app/features/orders/service.py:547-550 | A committing status change conserves a plant of its order if and only if the order is not cancelled already |
| CheckoutRuns.OverlapRestocksTwice | app/features/orders/service.py:362-369 | A run in which two overlapping cancellations of one order both succeed and its single unit comes back twice |
| Payments.CandidateReferences | app/features/payments/service.py:84-92 | The candidates, each once: the trimmed code and every pattern match in content and description, in upper case |
| Payments.OldestNamed | app/features/payments/service.py:95-112 | A bank-transfer order with a candidate reference and no older such order, or none when there is none |
| Payments.PaymentService.ProcessSepayWebhook | app/features/payments/service.py:115-181 | The new log row, the possibly settled order and the answer are those of the specification; a repeated id changes nothing |
| Payments.AnswerMeaning | app/features/payments/service.py:126-181 | Exactly when each answer is given: ignored, unmatched, and for an oldest order mentioned, already paid, a different amount, or the amount of its total; what is logged, and that only a match changes the order |
| Payments.LedgerHolds | app/features/payments/service.py:126-176 | In every state reached by deliveries, checkouts, status changes and edits: an order is paid if and only if exactly one matched row names it, with its total as amount; `paid_at` is set if and only if it is paid; only bank-transfer orders are paid |
| Payments.PaidForGood | app/features/payments/service.py:163-170 | Once an order is paid, no later event changes its payment status or `paid_at` |
| Payments.PaidByPayloads | app/features/payments/service.py:115-181 | After any deliveries, the paid orders are those paid before and those paid by one of the distinct new payloads |
| Payments.DeliveryOrderIrrelevant | app/features/payments/service.py:7-11 | Reordering or repeating deliveries never changes which orders are paid |
| Payments.LogByPayloads | app/features/payments/service.py:126-176 | Each new payload is logged with the order it resolves to and its amount, whatever the order of deliveries |
| Payments.ShownAmountExact | app/features/payments/service.py:64-65 | The amount shown equals the total if and only if the total is a whole number of VND, and is never off by more than half of one |
| Payments.FindsReference | app/features/payments/service.py:38 | Whatever stands around a 14-character reference, the leftmost non-overlapping search finds it |
| Payments.ExtractedExactlyUpTo9999 | app/features/payments/service.py:37-38 | The reference of an order is found in any text around it if and only if its daily sequence is at most 9999 |
| Payments.FiveDigitsNameAnotherOrder | app/features/payments/service.py:37-38 | For a five-digit sequence k the pattern finds exactly the reference of sequence k / 10 of the same day |
| Payments.ResolvesTo | app/features/payments/service.py:95-112 | A payload whose content names an order and that mentions no other order's reference resolves to that order |
| Payments.FollowTheInstructions | app/features/payments/service.py:51-81 | An incoming transfer of the shown amount with any text around the shown reference, mentioning no other order, marks exactly that order paid if its total is whole VND, and is an amount mismatch otherwise |
| SettlementRuns.NextKeepsOk | app/features/payments/service.py:126-176 | Every step of concurrent deliveries, aborts and other calls keeps that an uncommitted id has one holder, a decision about a locked order stays right, and the ledger holds |
| SettlementRuns.LedgerHoldsInterleaved | app/features/payments/service.py:7-11 | In every interleaving, with any other calls and aborts, an order is paid if and only if exactly one matched row names it, so two transactions never both pay one order |
| SettlementRuns.CommitSettlesTarget | app/features/payments/service.py:149-176 | A committing delivery logs its payload and settles it on the order its query found, as that order is at the commit |
| SettlementRuns.CommitIsSettle | app/features/payments/service.py:95-112 | It is the atomic webhook call of that moment if and only if the payload still resolves to that order |
| SettlementRuns.ResolvesAnew | app/features/payments/service.py:99-111 | A newly placed order changes what a payload resolves to if and only if the payload mentions it and it is older than the order found, or none was found |
| SettlementRuns.LoggedAsFound | app/features/payments/service.py:95-176 | In every interleaving at all, a payload is settled on the order it resolved to when its query ran |
| SettlementRuns.SettlementSerializable | app/features/payments/service.py:7-11 | In every interleaving that places no order a delivery under way overlooks, the tables end up as the webhook calls and other calls leave them one after the other, in commit order |
| SettlementRuns.OvertakingTransfer | app/features/payments/service.py:149-158 | Whenever the order a payload mentions is placed between its query and its commit, the answer is unmatched where the atomic call would match |
| SettlementRuns.OvertakingHappens | app/features/payments/service.py:149-158 | A concrete run of this kind |
| SettlementRuns.InterleavingIrrelevant | app/features/payments/service.py:7-11 | However deliveries are interleaved, repeated, aborted and retried, the paid orders depend on the answered payloads alone |
| SettlementRuns.SomeDeliveryMoves | app/features/payments/service.py:126-158 | As long as a delivery is unfinished, some delivery can take its next step: no deadlock between id and row locks |
| SettlementRuns.DeliveriesEnd | app/features/payments/service.py:126-181 | In every run, whatever happens in between, the deliveries take at most four steps each |
| SlugHistory.CatalogueService.CreatePlant | app/features/plants/service.py:317-354 | A taken slug is refused; otherwise the history entry of the slug is dropped and the plant is live under it |
| SlugHistory.CatalogueService.UpdatePlant | app/features/plants/service.py:408-474 | An unknown plant and a taken slug are refused; a new slug is released from history and the old one recorded; the same slug changes nothing in history |
| SlugHistory.CatalogueService.GetPlantBySlug | app/features/plants/service.py:255-285 | The live match first, then the history match, each filtered by the active flag when asked |
| SlugHistory.StepMovesOwnership | app/features/plants/service.py:96-112 | A call keeps live slugs unique and disjoint from history, never hits the unique constraint of the history, and moves a slug to the plant it is given to and no other |
| SlugHistory.TablesAreLastHolders | app/features/plants/service.py:317-320 | After every run the two tables enter each slug for the plant that most recently held it and for nobody else |
| SlugHistory.LookupFindsLastHolder | app/features/plants/service.py:255-285 | After every run the lookup answers with the most recent holder of the slug, or, asked for active plants only, with that plant if it is active and not found otherwise |
| SlugHistory.TakenExactlyWhileLive | app/features/plants/service.py:96-107 | After every run a slug can be given out if and only if it was never used, its last holder has moved on, or it is the plant's own |
| SlugHistory.SlugsKeepResolving | app/features/plants/service.py:255-285 | After any further calls, the lookup of a slug that a plant bears answers with its last holder, still that plant unless a successful call gave the slug to another; for active plants only, if and only if that holder is active |
| TextRules.LikeSubstring | app/core/text.py:26-32 | A percent-wrapped escaped keyword matches a string under LIKE if and only if the keyword is a literal substring |
| TextRules.SearchIsLiteral | app/features/plants/service.py:213-227 | A plant matches the search if and only if it is active and the trimmed keyword is not empty and occurs, up to case, in one of the two columns |
| TextRules.SlugNormalForm | app/core/text.py:35-39 | A normalized slug is empty or runs of a-z and 0-9 joined by single dashes; exactly those texts are left alone; normalizing twice is normalizing once |
| TextRules.PhoneIdempotent | app/core/text.py:56-78 | Normalizing any phone text twice is normalizing it once |
| TextRules.PhoneFormsAgree | app/core/text.py:56-78 | With any separators, `+84`, `84`, `0` and `+840` before a nine-digit number not starting with 0 all become `0` and that number |
| PhoneLimit.RefusedExactly | app/shared/bot_protection/service.py:75-89 | An attempt is refused if and only if at least three orders of the canonical phone lie in the closed last hour |
| PhoneLimit.RefusalLasts | app/shared/bot_protection/service.py:87-93 | After a refusal every attempt up to the counted order plus an hour is refused whatever else is placed; with no new orders every later one is accepted |
| PhoneLimit.WaitingAsTold | app/shared/bot_protection/service.py:91-93 | The seconds stated are between 1 and 3600; an attempt after exactly that wait is accepted if and only if the time left was zero or not a whole number of seconds |
| PhoneLimit.FourOrdersSpanMoreThanAnHour | app/shared/bot_protection/service.py:67-93 | In every serial run with a clock that does not go back, a storefront order and any three earlier orders of its phone span strictly more than an hour |
| KnowledgeIndex.SectionKeyShape | app/features/knowledge/plant_indexer.py:34-41 | A section key has 1 to 80 characters out of a-z, 0-9 and the dash |
| KnowledgeIndex.PlantObjects | app/features/knowledge/plant_indexer.py:44-79 | The loop numbers each chunk by the earlier chunks of its locale and section key |
| KnowledgeIndex.KeyInjective | app/features/knowledge/weaviate.py:39-51 | Source, section key, index and locale can be read back from an object key |
| KnowledgeIndex.KeysNeverCollide | app/features/knowledge/plant_indexer.py:50-63 | Two chunks share a key only if they are the same chunk of the same plant, truncated section keys included |
| KnowledgeIndex.KnowledgeStore.IndexPlant | app/features/knowledge/plant_indexer.py:87-130 | Deletes the plant's objects, inserts its chunks with content if it is active, and returns how many |
| KnowledgeIndex.SyncMirrors | app/features/knowledge/plant_indexer.py:167-179 | A sync replaces the pieces of its plant and leaves those of every other plant alone |
| KnowledgeIndex.StoreMirrorsPlants | app/features/knowledge/plant_indexer.py:1-5 | After any run of syncs the store holds exactly the pieces of the plants that were active when last synced |
| KnowledgeIndex.ResyncIsIdentity | app/features/knowledge/plant_indexer.py:133-139 | Syncing a plant again as it is changes nothing |
| Overview.NextMonthFollows | app/features/overview/service.py:129-132 | The next month starts right after the days of this one, December and leap years included, and today lies in between |
| Overview.LoadRevenueByDay | app/features/overview/service.py:242-280 | The loop yields one entry for every day from the first to today, in order, with that UTC day's orders and completed revenue |
| Overview.SeriesAddsUp | app/features/overview/service.py:253-280 | The series adds up to all orders and all completed revenue of its window |
| Overview.DashboardAgrees | app/features/overview/service.py:370-398 | On one snapshot the series has one entry per day of the month so far, its last entry is today's sales, and the month's figures are its sum plus what is dated after today |
| Overview.LoadOrdersByStatus | app/features/overview/service.py:231-239 | All six statuses are reported with their exact counts, unused ones with 0 |
| Overview.StatusCountsAddUp | app/features/overview/service.py:231-239 | The six counts add up to all orders |

## Left out

- The customer upsert, notifications and the storefront webhook of a checkout: side channels; a call they fail is an abort.
- Overlapping status changes on one order are modelled and shown to break the books; RunIsCalls, StockConserved and RestockedOnce assume they do not overlap.
- Checkouts and status changes beside deliveries: in the delivery runs each is one step of the committed tables, a status write waiting for the row lock; in the checkout runs the order row, locked last and held only to commit, is left out.
- Slug changes, phone-limit checks and index syncs are modelled as atomic calls, one at a time; the source takes no lock there.
- The SKU, category and copy fields of plants: they do not interact with slugs, stock or prices.
- `parse_dsml_tool_calls` and its patterns: only whether text is released or captured is modelled. A missing (`None`) text, which strips to the empty string, is not.
- OldestNamed: orders created at the same instant are ranked by position; PostgreSQL leaves that tie open.
- Payload amounts with more than two decimals: amounts are whole cents on both sides.
- Upper-casing outside ASCII: no other character upper-cases to a G or an ASCII digit, so no reference is won or lost.
- The QR link and the bank's name of the transfer instructions: text assembled from settings.
- LikeSubstring: case folding is a parameter that acts character by character and leaves `\`, `%` and `_` alone.
- Lower-casing in slugs: characters whose lower case has no ASCII letter are kept as they are, since the next substitution drops them.
- SectionKeyShape: the label is taken after Unicode decomposition and lower-casing; the object UUID is identified with the key it hashes.
- Failed calls to the vector store, text splitting and the remaining payload fields: a sync is modelled when it succeeds.
- Top plants, low stock, recent orders and the summary counters of the dashboard: single queries without further logic.
- Routers, schemas, authentication, rate limiting by IP, Redis, the chat client and migrations: plumbing over libraries that are not part of this model.
