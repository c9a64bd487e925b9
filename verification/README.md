# A verified model of the paper-trading core

The repository runs a paper-trading engine. A client deposits cash and submits, replaces and cancels
orders; a venue answers with numbered execution reports; and three records of the same money move
together: the order state machine, a double-entry journal with available and reserved balances, and
per-order maps of what each order still holds. Around this core sit a FIX 4.2 session and codec, bars,
books and pages over market data, and average-cost profit and loss.

This project models that code in Dafny and proves what it promises over whole runs.

## How it is laid out

| part | files |
|---|---|
| integers, sums, decimal text, instruments | Base, Decimal, Instruments |
| order aggregate, transition table, order store | Orders, OrderStore |
| entries, journal, cash and position commands | Ledger, PaperBook |
| exact notional, pre-trade risk | Notional, Risk |
| reports, sandbox venue, session cursor | Execution, Sandbox, Delivery |
| the engine as transitions, and as the object that runs | Engine, PaperEngine |
| draining without gaps | Draining |
| reserves: totals, exact guard of each step, whole runs, no shortfall, the repeated top-up | Reserves, ReserveSteps, ReserveRuns, ReserveSafety, RepeatedTopUp, TopUpExample |
| orders, venue and ledger in agreement | QuietBooks, Agreement, AgreementSteps, AgreementReplace, AgreementSubmit, Reconcile |
| restart | Hydration (methods in PaperEngine) |
| FIX 4.2 codec and gap recovery | FixCodec, FixSession |
| market data and profit and loss | Bars, L2Books, Paging, Pnl |

Objects whose methods update fields in the source are classes here (`OrderCell`, `OrderStore`, `Journal`,
`PaperBook`, `SandboxBroker`, `RiskEngine`, `PaperEngine`, `Acceptor`, `BarAggregator`, `BookEngine`).
Each method is tied to a function on values, or to the property itself, and the whole-run theorems are
about those functions. `dafny verify dfyconfig.toml` checks everything.

## What the proofs found

- **Top-up and surplus keys.** The keys of a replace are fixed per order, so a second drawn top-up moves
  no cash. Reserves stay conserved by a replace exactly when a top-up that will be drawn finds its key
  unused (`ReplaceConservesIff`), and by a report exactly when its guard holds (`ReportConservesIff`).
  A replace draws before it looks at the order's status, so two replaces in a row, the second refused,
  already break the sums (`RepeatedTopUpBreaks`, and from a fresh engine `SecondAskBreaksReserves`).
  Over whole runs the sums hold exactly as long as every guard does (`EveryRunConservesReserves`).
- **Short sells.** With shorting allowed the pre-trade check approves a sell the position cannot cover;
  exactly then the hold fails after the order was created (`SubmitNeverUnderfunded`).
- **Inexact fills.** When prices are finer than the quote currency, an order can have a value while one
  of its fills has none, and even an order that is exact at its limit for every quantity can meet a better
  price that is not (`PartialFillCanBeInexact`). All fills up to the limit are exact if and only if one
  price step of one lot is a whole number of minor units (`EveryFillExactIff`); the no-shortfall theorem
  asks for that.
- **Offline polls.** A disconnected sandbox still hands out its queue. The consumer gets its batch all the
  same, unless reports before it were lost, and then it gets a refusal, never a gap (`DeliversFromCursor`).
- **Sells with a fee** are always refused, because the entry has credits without debits (`SellWithFeeIsRefused`).
- **Parsing the least 64-bit value.** Printing and parsing round-trips for every scaled value except the
  minimum (`FormatThenParse`).
- **Restart.** Reserved cash is brought to what the open buys need only when the alignment key was never
  used, so a second restart over the same journal may change nothing (`AlignCashIff`). The key names the
  currency code only, so two currencies of one account must differ in their codes.
- **FIX framing byte.** A changed byte before the trailer is refused except exactly when it is the
  separator in front of `10=`; then the trailer is not seen and the message is taken unchecked
  (`TamperingCaughtIff`).
- **Resend range.** The resend cursor moves at every number below the largest 64-bit one and not at it, so
  a request ending at that number is never worked off (`ResendEndsIff`).
- **Largest book sequence.** A repeated delta is a duplicate except at the largest sequence number, where
  it is applied again (`RepeatedDeltaIff`).

## Model

| member | source | states |
|---|---|---|
| `Orders.ApplyEvent` | crates/domain/orders/src/transition.rs:13-106 | cloning the order, mutating the clone through its setters and checking it gives exactly the transition table's result, error or effect |
| `Orders.ApplyFollowsGraph` | crates/domain/orders/src/transition.rs:13-106 | an accepted event moves along the status graph, never changes identity, and a terminal order accepts nothing |
| `Orders.ApplyKeepsWellFormed` | crates/domain/orders/src/order.rs:319-446 | every accepted event keeps cum + leaves = quantity, leaves zero exactly when filled, distinct execution ids, pending terms exactly while a replace is pending |
| `Orders.ApplyIsStep` | crates/domain/orders/src/transition.rs:104 | the closing invariant check never fails on a reachable order, so the table alone decides |
| `Orders.ReplayAccountsForFills` | crates/domain/orders/src/order.rs:344-408 | after any life of events the filled quantity is the sum of the trades taken, each execution id once and in order, and once terminal nothing applies |
| `Orders.TradeNeverOverflows` | crates/domain/orders/src/order.rs:381-398 | with 64-bit inputs no overflow arm of a trade can be reached, and the average is the floor of the weighted mean between the old average and the fill price |
| `Orders.AveragePriceBound` | crates/domain/orders/src/order.rs:381-398 | over any life, average times quantity is at most the value of the fills and short of it by at most (fills - 1) times (quantity - 1), and the average lies between the lowest and highest fill price |
| `Orders.OrderCell.TakeTrade` | crates/domain/orders/src/order.rs:348-408 | the in-place trade has the specified outcome and leaves the order untouched when refused |
| `Orders.OrderCell.TakeReplaced` | crates/domain/orders/src/order.rs:416-446 | the in-place replace has the specified outcome and leaves the order untouched when refused |
| `OrderStores.EveryRunReplays` | crates/domain/orders/src/store.rs:105-163 | in every run each order equals the replay of its logged events from its one creation, and the client index names each order exactly once |
| `OrderStores.EveryRunAccountsForFills` | crates/domain/orders/src/store.rs:145-163 | in every run an order's filled quantity and execution ids are those of its logged trades |
| `OrderStores.ResubmitIsDuplicate` | crates/domain/orders/src/store.rs:105-134 | in every run submitting a client id again creates nothing and returns the stored order |
| `OrderStores.OrderStore.Submit` | crates/domain/orders/src/store.rs:105-140 | the in-place submit equals its specification, the id counter moving even when creation is refused |
| `OrderStores.OrderStore.ApplyEvent` | crates/domain/orders/src/store.rs:145-163 | the in-place event equals its specification; a refused event changes nothing |
| `OrderStores.OrderStore.RestoreOrder` | crates/domain/orders/src/store.rs:182-195 | a restored order replaces rows with its id or client key and bumps the id counter |
| `OrderStores.OrderStore.BumpNextIdPast` | crates/domain/orders/src/store.rs:197-199 | the id counter is raised to at least the given id |
| `Ledger.BuildEntry` | crates/domain/ledger/src/entry.rs:182-225 | the building loop accepts and refuses exactly as specified |
| `Ledger.BuildExactlyBalanced` | crates/domain/ledger/src/entry.rs:182-225 | a built entry has positive lines whose debits equal its credits in every currency |
| `Ledger.ReverseEntry` | crates/domain/ledger/src/entry.rs:101-117 | the reversal has every line flipped, in order, under the new key |
| `Ledger.Journal.Append` | crates/domain/ledger/src/journal.rs:55-85 | posting line by line equals its specification, including the partial balances a refused post leaves behind |
| `Ledger.EveryRunRefinesEntries` | crates/domain/ledger/src/journal.rs:55-95 | in every overflow-free run running balances are the fold of the stored entries, ids are 1..n, keys are distinct and indexed, duplicates change nothing |
| `Ledger.ReplayRebuilds` | crates/domain/ledger/src/journal.rs:55-85 | replaying the stored entries into an empty journal rebuilds an equal one |
| `Ledger.BalancesSumToZero` | crates/domain/ledger/src/journal.rs:55-85 | in every overflow-free run all balances sum to zero |
| `Ledger.TrialBalanceHolds` | crates/domain/ledger/src/journal.rs:104-122 | over balanced entries debit and credit totals agree, currency sets included |
| `Ledger.TrialBalanceInEveryRun` | crates/domain/ledger/src/journal.rs:104-122 | in every overflow-free run the trial balance holds |
| `Ledger.Journal.CheckTrialBalance` | crates/domain/ledger/src/journal.rs:104-122 | the two-map computation decides exactly that the trial balance holds |
| `Ledger.ReverseRestoresBalances` | crates/domain/ledger/src/entry.rs:101-117 | posting an entry and then its reverse under fresh keys restores every balance |
| `PaperBooks.PaperBook.TakeDeposit` | crates/domain/ledger/src/paper.rs:213-242 | the in-place deposit equals its specification |
| `PaperBooks.PaperBook.TakeWithdrawal` | crates/domain/ledger/src/paper.rs:244-274 | the in-place withdrawal equals its specification |
| `PaperBooks.PaperBook.Reserve` | crates/domain/ledger/src/paper.rs:276-318 | the in-place cash reserve equals its specification |
| `PaperBooks.PaperBook.Release` | crates/domain/ledger/src/paper.rs:321-360 | the in-place release equals its specification |
| `PaperBooks.PaperBook.Buy` | crates/domain/ledger/src/paper.rs:363-436 | the in-place buy settlement equals its specification, a duplicate key adding no lots |
| `PaperBooks.PaperBook.Sell` | crates/domain/ledger/src/paper.rs:494-572 | the in-place sell settlement equals its specification |
| `PaperBooks.PaperBook.ReserveLots` | crates/domain/ledger/src/paper.rs:438-464 | the in-place lot reserve equals its specification |
| `PaperBooks.PaperBook.ReleaseLots` | crates/domain/ledger/src/paper.rs:466-491 | the in-place lot release equals its specification |
| `PaperBooks.EveryRunConserves` | crates/domain/ledger/src/paper.rs:213-567 | in every overflow-free run available + reserved is deposits less withdrawals less buys and fees plus sells, each key once; no balance is negative and reserved lots stay within the position |
| `PaperBooks.SellWithFeeIsRefused` | crates/domain/ledger/src/paper.rs:534-545 | a sell with a positive fee is always refused and moves nothing |
| `Decimals.ParseDecimal` | crates/domain/instruments/src/grid.rs:421-481 | the parser with its padding loop computes the specified value or error |
| `Decimals.FormatThenParse` | crates/domain/instruments/src/grid.rs:421-502 | for every 64-bit value and scale up to 18, parsing the printed value gives it back if and only if it is not the minimum |
| `Decimals.AcceptedIsNumeral` | crates/domain/instruments/src/grid.rs:421-481 | every accepted text is a signed numeral and parses to sign * (whole * 10^scale + frac * 10^(scale - digits)) |
| `Decimals.ReformatIsCanonical` | crates/domain/instruments/src/grid.rs:421-502 | printing what was parsed parses to the same value and prints the same again |
| `Instruments.ExactlyOneBand` | crates/domain/instruments/src/grid.rs:143-210 | in a ladder the constructor accepts a price inside its range lies in exactly one band, the one lookup returns, and a price outside in none |
| `Notionals.NotionalIsExact` | crates/domain/paper/src/notional.rs:18-62 | a successful notional loses nothing: scaled back it is price * lots * multiplier |
| `Notionals.FillFitsReserve` | crates/domain/paper/src/notional.rs:18-62 | when every price step of one lot is a whole number of minor units, a fill at or below the limit always has a value, and the rest of the limit value fits in what remains |
| `Notionals.EveryFillExactIff` | crates/domain/paper/src/notional.rs:18-62 | every fill of an order, at any price up to its limit and any quantity up to its own, has a value if and only if every price step of one lot is a whole number of minor units |
| `Notionals.FillsAtPriceExactIff` | crates/domain/paper/src/notional.rs:41-62 | with a coarse quote the fills at one price all have a value if and only if one lot at that price has |
| `Notionals.PartialFillCanBeInexact` | crates/domain/paper/src/notional.rs:41-62 | an instrument whose 100-lot order has a value while one of its lots has none, and whose order is exact at its limit for every quantity but not one tick below |
| `Risk.ApprovedMeans` | crates/domain/risk/src/engine.rs:211-297 | an order is approved if and only if no kill switch or unlifted restriction is on, the session is open, the daily loss, quantity, notional, collar, exposure, position and short limits that are switched on hold, and the account covers it |
| `Sandbox.SandboxBroker.Submit` | crates/protocols/execution/src/sandbox.rs:190-258 | the in-place submission equals its specification: reject, accept, accept and fill, accept and expire |
| `Sandbox.SandboxBroker.Cancel` | crates/protocols/execution/src/sandbox.rs:260-286 | the in-place cancel equals its specification |
| `Sandbox.SandboxBroker.Replace` | crates/protocols/execution/src/sandbox.rs:335-368 | the in-place replace equals its specification |
| `Sandbox.SandboxBroker.Recover` | crates/protocols/execution/src/sandbox.rs:390-400 | recovery returns the session's reports from a number on, in order, or the disconnect error |
| `Sandbox.SandboxBroker.Resume` | crates/protocols/execution/src/sandbox.rs:382-388 | a reconnect starts the next session at number 1 with journal and queue empty, rows kept |
| `Sandbox.SubmitExtends` | crates/protocols/execution/src/sandbox.rs:149-258 | a submission extends the journal by exactly what it queued and keeps it numbered |
| `Sandbox.ExecIdsDistinct` | crates/protocols/execution/src/sandbox.rs:181-186 | two counters give the same execution id text only when they are equal |
| `Delivery.DeliversFromCursor` | crates/domain/paper/src/engine.rs:1066-1123 | for any cursor and any nonempty suffix of the session's journal that a poll returns, the batch offered is exactly the journal from the cursor on, each report once, with no gap; a disconnected venue refuses exactly when reports before the suffix are missing |
| `Delivery.DedupeReports` | crates/domain/paper/src/engine.rs:1373-1385 | the loop with its seen set keeps, in order, exactly the first report of every session and number |
| `Delivery.RetainFrom` | crates/domain/paper/src/engine.rs:1091-1096 | the filter keeps the session's reports from the expected number on |
| `Draining.DrainAppliesFromCursor` | crates/domain/paper/src/engine.rs:1066-1098 | draining such a batch applies the reports from the cursor on, except when earlier ones are missing and the venue is offline, and then applies nothing |
| `Draining.DrainNeverSeesGap` | crates/domain/paper/src/engine.rs:1066-1163 | whatever the reports do to the orders and whether or not the venue is connected, draining such a batch never ends in a sequence gap, never turns the kill switch on, and on success ends just past the journal |
| `PaperEngines.PaperEngine.constructor` | crates/domain/paper/src/engine.rs:113-132 | a fresh engine over a fresh sandbox |
| `PaperEngines.PaperEngine.DepositFunds` | crates/domain/paper/src/engine.rs:535-550 | the in-place deposit equals its specification |
| `PaperEngines.PaperEngine.WithdrawFunds` | crates/domain/paper/src/engine.rs:557-572 | the in-place withdrawal equals its specification |
| `PaperEngines.PaperEngine.Submit` | crates/domain/paper/src/engine.rs:751-918 | the in-place submission, from validation through hold, venue and drain, equals its specification |
| `PaperEngines.PaperEngine.Cancel` | crates/domain/paper/src/engine.rs:925-946 | the in-place cancel equals its specification |
| `PaperEngines.PaperEngine.Replace` | crates/domain/paper/src/engine.rs:953-1046 | the in-place replace, topping up before the status is looked at, equals its specification |
| `PaperEngines.PaperEngine.Drain` | crates/domain/paper/src/engine.rs:1066-1073 | polling, recovery and the loop over reports equal their specification |
| `PaperEngines.PaperEngine.EnsureContiguous` | crates/domain/paper/src/engine.rs:1075-1098 | the in-place cursor and batch equal their specification |
| `PaperEngines.PaperEngine.ApplyReport` | crates/domain/paper/src/engine.rs:1100-1163 | the in-place report handling equals its specification |
| `PaperEngines.PaperEngine.ApplyEffects` | crates/domain/paper/src/engine.rs:1166-1334 | the in-place effects equal their specification |
| `PaperEngines.PaperEngine.ReleaseRemaining` | crates/domain/paper/src/engine.rs:1336-1370 | the in-place release equals its specification |
| `ReserveSteps.ReportConservesIff` | crates/domain/paper/src/engine.rs:1100-1370 | for every report, duplicates, stale and illegal ones included, reserves stay conserved if and only if the report's guard holds: a covered fill carries an unused key; a confirmed replace needs no more than is held and gives a surplus back under an unused key |
| `ReserveRuns.ReplaceConservesIff` | crates/domain/paper/src/engine.rs:970-1022 | a replace on any order in any status keeps reserves conserved if and only if a top-up that will be drawn finds its key unused |
| `ReserveRuns.SubmitConserves` | crates/domain/paper/src/engine.rs:751-885 | a submission, accepted or refused, keeps reserves conserved |
| `ReserveRuns.ActConservesIff` | crates/domain/paper/src/engine.rs:535-1370 | one input of any kind, command or report, keeps reserves conserved if and only if its guard holds |
| `ReserveRuns.EveryRunConservesReserves` | crates/domain/paper/src/engine.rs:829-1370 | in every run without ledger overflow, over any instruments, requests and report stream: journal reserved cash equals the sum of the per-order holds for each account and currency, and reserved lots likewise, after every input, if and only if every replace and report met its guard |
| `ReserveSafety.EveryRunIsSafe` | crates/domain/paper/src/engine.rs:829-1370 | in every run whose instruments have exact steps, whose fills carry fresh execution ids and respect a buy's limit, whose confirmed replaces echo what was asked, and whose replaces name live orders and find their keys unused: reserves are conserved, every live order is funded at its own and its requested terms, terminal orders hold nothing, and no report ends in a shortfall, a ledger refusal or an inexact value |
| `ReserveSafety.ReportKeepsSafe` | crates/domain/paper/src/engine.rs:1100-1370 | in a safe state over instruments with exact steps, a report with a fresh execution id, a buy fill within its limit or an echoed replace succeeds whenever its event is legal, and keeps everything safe |
| `ReserveSafety.SubmitNeverUnderfunded` | crates/domain/paper/src/engine.rs:793-882 | an approved buy never misses its funds; an approved sell misses its lots if and only if it asks for more than is free, which needs shorting allowed |
| `RepeatedTopUp.RepeatedTopUpBreaks` | crates/domain/paper/src/engine.rs:970-995 | two replaces of one order that both draw cash leave the reserves unconserved |
| `TopUpExample.SecondAskBreaksReserves` | crates/domain/paper/src/engine.rs:970-1044 | from a fresh engine: deposit, buy 10 lots, accept, ask for more, ask for more still; the second ask is refused and the order then holds more than is reserved |
| `Reconciliation.EveryRunAgrees` | crates/domain/paper/src/reconcile.rs:88-229 | in every state reached by deposits, withdrawals, submits, cancels, replaces, drains, disconnects and risk changes over the sandbox, accepted and refused calls alike and without ledger overflow, reconciliation has nothing to report |
| `Reconciliation.Reconcile` | crates/domain/paper/src/reconcile.rs:88-139 | walking the tables in any order reports exactly the mismatches that exist |
| `Reconciliation.ReconcileAgreed` | crates/domain/paper/src/reconcile.rs:88-139 | reconciling an engine in agreement returns no mismatch |
| `Reconciliation.OrdersAgainstVenue` | crates/domain/paper/src/reconcile.rs:91-119 | exactly the quantity, canceled-but-working and missing-at-venue mismatches |
| `Reconciliation.DropCopyAgainstOrders` | crates/domain/paper/src/reconcile.rs:141-163 | exactly the venue executions no order has taken, and the set of printed ones |
| `Reconciliation.OrdersAgainstDropCopy` | crates/domain/paper/src/reconcile.rs:165-177 | exactly the executions orders have taken that the venue did not print, unless it printed none at all |
| `Reconciliation.OrdersAgainstLedger` | crates/domain/paper/src/reconcile.rs:204-214 | exactly the executions orders have taken without a ledger fill |
| `Reconciliation.LedgerAgainstOrders` | crates/domain/paper/src/reconcile.rs:216-228 | exactly the ledger fills no order has taken |
| `AgreementSubmit.SubmitAgrees` | crates/domain/paper/src/engine.rs:751-918 | a submission keeps orders, venue and ledger fills in agreement |
| `AgreementSteps.CancelAgrees` | crates/domain/paper/src/engine.rs:925-946 | a cancel keeps them in agreement |
| `AgreementReplace.ReplaceAgrees` | crates/domain/paper/src/engine.rs:953-1046 | a replace keeps them in agreement, even when an earlier confirmation is read again first |
| `PaperEngines.PaperEngine.Hydrate` | crates/domain/paper/src/engine.rs:584-632 | a successful restart leaves every open order holding its own value and exactly the right orders with a venue row, marks and durable trades as the restored fills give them, reserved lots equal to open sells, and reserved cash equal to open buys unless the kill switch is on; pending orders turn it on |
| `PaperEngines.PaperEngine.ReinflateWorkingState` | crates/domain/paper/src/engine.rs:635-740 | the collecting, row-restoring and aligning loops, in any order of their tables, do this |
| `PaperEngines.PaperEngine.SeedMarks` | crates/domain/paper/src/risk_ctx.rs:152-163 | every mark is the average of a filled order on its instrument, every such instrument has one, and the durable trades are each order's executions once |
| `Hydration.AlignCashIff` | crates/domain/paper/src/engine.rs:694-728 | an alignment that reports success leaves exactly what is needed reserved if and only if its key was unused |
| `FixCodec.EncodeFix` | crates/protocols/execution/src/fix.rs:1635-1656 | the building loops produce the specified bytes, body length and checksum included |
| `FixCodec.DecodeFix` | crates/protocols/execution/src/fix.rs:1663-1691 | the decoding loop produces the specified map or error, the last field of a tag winning |
| `FixCodec.RoundTrip` | crates/protocols/execution/src/fix.rs:1635-1691 | decoding an encoded message gives exactly its fields, each under its tag, and nothing else |
| `FixCodec.FixChecksum` | crates/protocols/execution/src/fix.rs:1693-1695 | wrapping addition byte by byte is the byte sum modulo 256 |
| `FixCodec.TamperingCaughtIff` | crates/protocols/execution/src/fix.rs:1663-1691 | changing one byte before the trailer is refused if and only if it is not the separator in front of the trailer |
| `FixCodec.TamperedSeparatorIsMissed` | crates/protocols/execution/src/fix.rs:1667-1676 | overwriting that separator makes the message decode unchecked, its last field running into the trailer |
| `FixCodec.WithPossDup` | crates/protocols/execution/src/fix.rs:1702-1721 | a retransmission of any decodable message is the encoding of tag 43 and the other body tags ascending, and decodes to the same tags with 43 set; only begin string, length, number text, sending time and checksum are the encoder's own |
| `FixCodec.CompleteMessageLen` | crates/protocols/execution/src/fix_tcp.rs:62-75 | the scan returns the end of the first frame, or nothing when there is none |
| `FixCodec.FramesExactly` | crates/protocols/execution/src/fix_tcp.rs:62-75 | an encoded message followed by anything frames at its own length, and no proper prefix of it frames |
| `FixSession.GapRecovery` | crates/protocols/execution/src/fix.rs:568-594 | for any store and holes, the answer from begin to end received by a session expecting begin delivers every kept message once and in order, asks for nothing, and leaves it expecting end + 1 |
| `FixSession.Acceptor.HandleResendRequest` | crates/protocols/execution/src/fix_tcp.rs:368-412 | for every request whose loop ends it sends, number by number, kept messages as possible duplicates and holes as gap fills |
| `FixSession.Acceptor.Send` | crates/protocols/execution/src/fix_tcp.rs:346-366 | a sent message is kept under its number, decodable and no sequence reset; the counter stays at the largest number |
| `FixSession.CursorMovesIff` | crates/protocols/execution/src/fix_tcp.rs:385-410 | the resend cursor moves if and only if it is below the largest number, and never past end + 1 |
| `FixSession.ResendEndsIff` | crates/protocols/execution/src/fix_tcp.rs:384-410 | the resend loop ends if and only if its range ends below the largest number |
| `FixSession.GapFillAccepted` | crates/protocols/execution/src/fix.rs:686-701 | a gap fill moves the receiver's expected number to the new one and takes no message |
| `Bars.BucketContains` | crates/domain/market-data/src/bar.rs:65-69 | the bucket of a timestamp is the one multiple of the interval whose window holds it |
| `Bars.BarAggregator.FromJournal` | crates/domain/market-data/src/bar.rs:357-373 | a successful replay leaves exactly one bar per bucket that received a trade, with its sum, count and first price, high and low attained and bounding every trade, and close between low and high |
| `Bars.BarAggregator.ApplyInterval` | crates/domain/market-data/src/bar.rs:375-430 | the in-place update equals its specification and returns the bar it closed |
| `Bars.BarAggregator.ApplyRecord` | crates/domain/market-data/src/bar.rs:330-345 | a record updates every interval and returns exactly the bars it closed, by interval |
| `Bars.BarAggregator.CloseOpen` | crates/domain/market-data/src/bar.rs:347-355 | every working bar joins the store, in any order |
| `Bars.StepTracks` | crates/domain/market-data/src/bar.rs:375-456 | one trade with any timestamp keeps the bars of its instrument and interval equal to the group-by |
| `Bars.BarsRefineGroupBy` | crates/domain/market-data/src/bar.rs:330-456 | for every journal and out-of-order times the closed bars are the group-by |
| `L2Books.DependsOnLastSnapshot` | crates/domain/market-data/src/book.rs:297-355 | after an accepted snapshot the book is the one a fresh engine gets from that snapshot and the later events |
| `L2Books.EveryBookOk` | crates/domain/market-data/src/book.rs:418-467 | in every run: no level unless healthy, no size zero or negative, every price shows its last write since the snapshot, applied sequenced deltas consecutive from it |
| `L2Books.RepeatedDeltaIff` | crates/domain/market-data/src/book.rs:446-460 | an applied delta sent again is a duplicate if and only if its number is below the largest |
| `L2Books.BookEngine.ApplySnapshotEvent` | crates/domain/market-data/src/book.rs:418-432 | the in-place snapshot equals its specification |
| `L2Books.BookEngine.ApplyDeltaEvent` | crates/domain/market-data/src/book.rs:434-467 | the in-place delta equals its specification |
| `L2Books.BookEngine.InvalidateBook` | crates/domain/market-data/src/book.rs:398-403 | the in-place invalidation equals its specification, creating a missing book first |
| `Paging.PageBars` | crates/domain/market-data/src/historical.rs:254-297 | one query, its page size clamped, returns the cut of the selection past its cursor and the cursor to go on from |
| `Paging.PagingIsComplete` | crates/domain/market-data/src/historical.rs:254-297 | following the cursor ends, and the pages together are the selection in ascending order, each bar once, working bar included, no page over the limit |
| `Paging.SelectedIs` | crates/domain/market-data/src/historical.rs:263-285 | the selection is ascending and holds exactly the closed bars in range plus the eligible working bar |
| `Pnl.PnlConserves` | crates/domain/paper/src/risk_ctx.rs:164-228 | realized profit less open cost is counted proceeds less total cost despite truncation; open lots are bought less counted sold; lots and cost never negative, no cost without lots |
| `Pnl.InventoryFromOrders` | crates/domain/paper/src/risk_ctx.rs:164-228 | the result is the count over exactly the account's filled orders, ascending by id, the first failure ending it |

## Left out

- Unsigned counters that saturate at the largest 64-bit number (order, venue, execution and report numbers) are unbounded here, except where the model writes the saturation out: bar counts, book sequences, resend cursor, journal and order ids.
- Audit records, tracing and logical time: they change none of the modelled state.
- Day profit and loss and asset-class exposure enter the risk check as parameters.
- Idempotency keys are a tagged datatype, so a client key never equals an engine key; the text formats and the trimming of keys are not modelled.
- Trial-balance totals, restart totals and bar-group sums are unbounded integers.
- `PaperEngines.PaperEngine.Hydrate`: book and order store are emptied in place instead of replaced by new objects; an order without a venue id gets some new one, which one is not stated.
- `Ledger.TrialBalanceHolds`: states the agreement of unbounded totals; the source adds them in 128 bits unchecked.
- `FixSession.Acceptor.HandleResendRequest`: requires a loop that ends (`ResendEndsIff`); writing to the socket cannot fail in the model.
- `FixSession.Acceptor.Send`: no message of type `4`, which the acceptor never sends this way; writing to the socket cannot fail.
- `FixSession.GapRecovery`: one answer to one request; overlapping resends with stale sequence resets are not claimed to deliver once.
- `L2Books.EveryBookOk`: consecutive numbers are stated below the largest sequence number only; the book digest is not modelled.
- `Bars.BarAggregator.CloseOpen`: the sorted list of bars it also returns is not modelled; trades after closing are not covered.
- `Reconciliation.Reconcile`: the human-readable details are left out; end-of-day comparison with a broker file is not part of this model.
- `ReserveRuns.EveryRunConservesReserves`: runs in which a balance or position leaves its width are not covered; the journal then keeps part of an entry.
- Trade paging, injected reports, session reconnects in agreement runs, and venues other than the sandbox.
- The FIX venue as initiator, its socket, and the bytes it drops after a first message.
- Storage, messaging, telemetry, gateways and user interface.
