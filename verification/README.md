# Exchange engine: model and proofs

A Dafny model of the matching core of an exchange simulator written in C++, with proofs of what the
core is meant to guarantee: quantity conservation, price and time priority, agreement of every cache
and feed with the book, termination, auction optimality, and exact reversal of busted trades. Beside
it stand three smaller components: the lock-free ring buffer, the journal reader and writer, and the
message throttle.

`dafny verify dfyconfig.toml` checks the whole project.

## How the model is laid out

- **The book.** `Types`, `Queues`, `Levels`: orders, FIFO queues, price-sorted levels with their cached
  totals and counts.
- **The storage under the book.** `Pool`, `Chain`: the slot pool and the intrusive lists. `Linked` says when
  order and level slots, their links, back-pointers and list ends stand for four sorted lists of levels, and
  what each relinking does to those lists. `Books` has the operations of the order book and the stop book on
  that storage. `Slots` adds the two pools and the order index, and carries out every elementary change of
  the engine's state on slots and links. `Changes` takes every operation apart into such changes, and `Follow`
  carries any sequence of them out.
- **What a subscriber and an accountant see.** `Tape` folds the order feed (`OrderBookAction` events)
  into a book of its own; `Ledger` holds the trade tape, the trade registry and the net positions.
- **The engine's state and its steps.** `State` (module `EngineState`), `Steps`, `Trading`, `Matching`,
  `Progress`, `Stops`, `Lifecycle`, `Turns`, `Cancels`, `Busts`, `Implied`, `Restores`, `Auction`, `Crossing`,
  `Runs`: the state as a value, each elementary change as a function, and lemmas on what every change keeps.
  `Effects` says what each public operation does, down to the last fill and cancel. `Checks` lists what the
  engine checks first, `Outcomes` says what a client sees of each operation, `Parties` whose orders and
  accounts the trades are, and `Positions` what they do to net positions. `Crowds` and `Room` bound
  the orders at a price by what the fill buffer can take and `Overruns` says when it is too small; `Wholes`
  counts hidden quantity; `FillOrKill` says when such an order is all or nothing; `Silence` is about changes
  the order feed does not tell. `Opening`, `Icebergs`, `Partial` and `Overruns` build, order by order, the
  books on which a promise fails.
- **The engine itself.** `Engine` has the class `MatchingEngine` with the source's fields and methods.
  Each method is tied to the step functions by `Now() == Step(old(Now()), ...)` or by the invariants.
- **Matching policies.** `Alloc`, `ProRata`, `Priority`, `Split`, `Gtbpr`, `Policies`; `Compare`, which
  relates three of them, `Determined`, which shows that each rule settles what every order gets, and
  `Entitled` and `TimeShare`, which put what an order is owed into whole numbers.
- **The rest.** `Ring`, `RateLimit`, `Journal` with `JournalText` and `JournalProofs`.

The invariant of a running engine is `Trading.Inv`:

- every indexed order is in exactly one list, and the indexed orders and the free order slots, and the
  listed levels and the free level slots, make up the two capacities;
- sides are strictly price-sorted and every level's total and count are those of its queue;
- nothing rests with an empty tranche, and `filled + remaining == quantity` for a plain order;
- every order has been filled by exactly its standing trades;
- every tracked account's position is the signed sum of its standing trades.

`EngineState.MirrorsBook` says that replaying the order feed gives the visible book, with the queue
order at every price. `EngineState.Uncrossed` says that no bid reaches an ask. `Room.Roomy` says that no
price has more orders, resting or waiting to be worked there, than the 256 fill results of one match allow.

`Engine.MatchingEngine.Run` does every operation it is owed, as `Effects.Effect` says, and carries the
invariant and the room through any sequence of operations; the mirror through the operations the feed tells
in full; and uncrossedness through those of a matching session. Every trade of a run was made by one of its
operations between two orders that operation could see, on opposite sides, with their accounts, at a price
both accept (or is what a leg of implied fills asked for), and the last trade price is that of the last
trade (`Parties.AllMade`).

The state is related to the storage by `Slots.Slots.Shows`: the four lists are those the links visit, the
indexed identifiers those of the order index, and the free counts those of the pools. `Slots.Slots.Valid`
holds of the storage: links and back-pointers agree, the level slots in use are exactly the linked levels,
and the order slots in use exactly the indexed orders. Every run comes down to elementary changes that read
off what its operations did (`Changes.RunChanges`, traced in the ensures of `Run`), and `Follow.FollowAll`
carries those out on the storage, so that a state a run reaches has storage that is valid and shows it
(`Follow.Build`).

While an aggressor is matched, the policy has already taken all its fills out of the queue and the
engine commits them one at a time. `Matching.Wind` relates the stored level to the level as committed
so far; that is what makes committing, and undoing after a self-match, provable for every policy alike.

Hooks that an exchange overrides are fields of `Progress.Rules`. Self-match is asked of the two accounts,
which is all that the exchanges of the repository look at; the market-maker hook's answer is a field of the
request. The verdicts of the rate tracker and of
the bust and session hooks are parameters of the calls that ask for them.

## What turned out not to hold

- Threshold matching with threshold 0 and split matching with no FIFO part are described as plain
  pro-rata. They are not: they fill the first orders up with the left-over lots where pro-rata gives one
  lot each. `Compare.ZeroThreshold` and `Compare.ZeroSplit` give the exact condition under which they
  agree, `Compare.ZeroThresholdDiffers` an input on which they do not.
- An auction does not always leave the book uncrossed. It does if and only if the volume it matched is at
  least what both sides hold in common at every price, hidden quantity counted
  (`Engine.MatchingEngine.ExecuteAuction`, `Wholes.TakenUncrosses`). `Icebergs.IcebergStaysCrossed` is a book
  entered order by order that fails the condition.
- A bust keeps the invariant if and only if the trade had two orders, or was an implied fill of an order
  that is gone and of an account that is not tracked (`Busts.BustInv`, `Ledger.BustBalanced`).
- A restored order keeps the invariant if and only if it is a limit order whose quantities add up and whose
  fills are the trades on record, or no level was free for it (`Restores.RestoreInv`).
- The fill buffer has 256 entries and no check. Under every policy a level has room for all quantities if and
  only if it needs no more than 256 places: one for each order and, for a split, one more where some quantity
  has its first part end inside an order and its second leave nobody out (`Overruns.LevelRoom`). In time
  priority a given quantity has room if and only if the first 256 orders show it (`Overruns.FifoFits`).
  `Overruns.BufferOverrun` is a book of 257 orders that overruns it under every policy,
  `Overruns.SplitOverrun` one of 256 that does under every split in two real parts.
- A fill-or-kill order is not always filled with its whole quantity or cancelled untouched: the pre-check
  counts the orders of its own account, and of an iceberg only what it shows. In a calm session it is if and
  only if the pre-check fails; or a self-match cancels nothing but the order and the policy's first entry is
  one; or the order hides nothing and strangers hold enough, hidden quantity counted (where a self-match
  cancels the resting order), or it meets none of its own (where a self-match cancels it):
  `FillOrKill.FokExactly`. `FillOrKill.FokPartly` says exactly when it trades some of what it shows and not
  the rest. `Partial.PartFilled` is a book on which it does so under all three self-match actions,
  `Partial.TipFilled` an iceberg that is done after its first tranche.
- The order feed does not tell everything. After a bust it still replays to the book if and only if neither
  order of the trade is left (`Busts.BustTold`); after an amendment in place if and only if the order shows
  what it did (`Cancels.AmendTold`); after every other operation that the engine is owed it does.
- `size()` of the ring buffer is within its range when the producer or the consumer calls it
  (`Ring.SizeInRange`). For any other caller it is so if and only if no more pops than pushes were loaded
  (`Ring.SizeOfLoads`); `Ring.OutsiderWraps` is a run in which it is not.
- The journal loses the four settings it does not print, and any token with white space in it.
  `JournalProofs.RoundTrip` is an exact condition.
- The throttle lets up to twice its limit through in a stretch as long as its window, and no more
  (`RateLimit.RateBound`, `RateLimit.TwiceIsReached`).

## Model

| member | source | states |
|---|---|---|
| Levels.FindLevel | exchange-core/orderbook.cc:60-66 | finds the level with a price, or reports that no level has it |
| Levels.LinkLevel | exchange-core/orderbook.cc:78-100 | links a new level at the one position that keeps the side strictly sorted |
| Levels.InsertOrder | exchange-core/orderbook.cc:9-33 | the order ends up last in the queue of its price; a level is linked exactly when the price was new |
| Levels.RemoveOrder | exchange-core/orderbook.cc:39-54 | the order leaves its queue, the others keep their order; the level is unlinked exactly when it was the last |
| Books.Books.FindLevel | exchange-core/orderbook.cc:60-66 | walking the next links finds the level with a price, or ends because no level of the list has it |
| Books.Books.LinkLevel | exchange-core/orderbook.cc:78-100 | rewires the links so that the level is listed before the first worse one and nothing else moves |
| Books.Books.UnlinkLevel | exchange-core/orderbook.cc:106-112 | rewires the links so that exactly this level is no longer listed |
| Books.Books.Insert | exchange-core/orderbook.cc:9-33 | on links and back-pointers it does what Levels.Insert does to the list, and nothing to the other three; the spare slot is used exactly when the price was new |
| Books.Books.RemoveOrder | exchange-core/orderbook.cc:39-54 | takes the order out of its queue by its back-pointer, clears that, and unlinks and returns the level exactly when it was the last; the list is as PutQueue says, the others unchanged |
| Books.Books.RemoveStop | exchange-core/stop_book.cc:39-59 | the same for a stop; looking for the level among the buy stops finds the right side |
| Books.Books.Requeue | exchange-core/matching_engine.h:1791-1803 | removing and pushing back an exhausted order, with the level's total, is PutQueue of the queue with its next tranche last |
| Books.Books.Rewrite | exchange-core/matching_engine.h:360-386 | changing an order in place with its level's total is PutQueue of the changed queue |
| Linked.RequeuedLinked | exchange-core/orderbook.cc:25-30 | giving one level a new queue of its own and loose orders keeps every link and back-pointer consistent |
| Linked.RequeuedView | exchange-core/orderbook.cc:25-30 | and changes that level only |
| Linked.InView | exchange-core/orderbook.cc:78-100 | a linked level appears at its place in its list |
| Linked.OutView | exchange-core/orderbook.cc:106-112 | an unlinked level disappears from its list |
| Slots.Slots.Accept | exchange-core/matching_engine.h:215-244 | takes a slot nobody has and indexes the order, or fails exactly when the pool is exhausted |
| Slots.Slots.Release | exchange-core/matching_engine.h:1522-1528 | frees the slot of an order in hand and clears its index entry |
| Slots.Slots.RestOrder | exchange-core/matching_engine.h:1575-1589 | with slots and links it does what Rest does to the state; the spare level is freed when not needed, the order when no level is to be had |
| Slots.Slots.ParkOrder | exchange-core/matching_engine.h:252-263 | linked under its stop price with its own price written back, it does what Park does to the state |
| Slots.Slots.Detach | exchange-core/matching_engine.h:1618-1621 | the order is in hand and an emptied level freed, once |
| Slots.Slots.CancelOrder | exchange-core/matching_engine.h:1250-1285 | the order's type finds its book; it does what CancelAny does to the state and frees each slot once |
| Slots.Slots.TakeFrom | exchange-core/matching_engine.h:791-798 | it does what TakeAt does to the state |
| Slots.Slots.SettleOrder | exchange-core/matching_engine.h:1791-1836 | it does what SettleAt does to the state: requeued, or every slot freed once |
| Slots.Slots.NothingLost | exchange-core/matching_engine.h:914-926 | the pools' free counts and the indexed orders and listed levels make up the capacities |
| Follow.Apply | exchange-core/matching_engine.h:1250-1323 | any elementary change of the state that can be made is made on slots and links, the order found through the index |
| Follow.FollowAll | exchange-core/matching_engine.h:133-1163 | any sequence of them keeps links, back-pointers, pools and index consistent and ends with storage that shows the new state |
| Follow.Build | exchange-core/matching_engine.h:115-123 | a state such a sequence reaches from a new engine has consistent storage that shows it |
| Changes.OpTraces | exchange-core/matching_engine.h:133-1163 | every operation comes down to the changes read off the note of how it went: its fills, cancels, amendments, the slot it takes and the end it meets, in order |
| Changes.WorkTraces | exchange-core/matching_engine.h:1327-1571 | so does working an order: the fills of its turns, the cancels of self-matches and its end |
| Changes.RunMore | exchange-core/matching_engine.h:133-1163 | the changes of a run are those of its operations, one after the other |
| Levels.InsertOk | exchange-core/orderbook.cc:9-33 | insertion keeps sorting and caches, adds exactly one order, and one level when the price is new |
| Levels.PutWellFormed | exchange-core/orderbook.cc:39-54 | replacing or emptying a queue keeps sorting and caches of the side |
| Levels.PutBag | exchange-core/orderbook.cc:39-54 | identifiers on a side change by exactly those of the replaced queue |
| Ledger.UpdateFill | exchange-core/position_tracker.h:34-42 | moves one tracked account by the signed quantity; account 0 and unknown accounts are not tracked |
| Ledger.ReverseFill | exchange-core/position_tracker.h:46-54 | undoes the move of the same fill |
| Ledger.Record | exchange-core/trade_registry.h:36-57 | numbers trades from 1 and records them until the registry is full |
| Ledger.MarkBusted | exchange-core/trade_registry.h:68-73 | marks a recorded trade once; unknown and already busted trades are refused |
| Ledger.PostedBalanced | exchange-core/matching_engine.h:1387-1429 | posting a trade keeps every position equal to the signed sum of its standing trades |
| Ledger.BustBalanced | exchange-core/matching_engine.h:565-621 | busting a standing recorded trade keeps every position equal to that sum if and only if the trade is not an implied fill with its resting account tracked |
| Ledger.BustUndoesPost | exchange-core/matching_engine.h:565-621 | busting a trade right after posting it gives back the positions from before |
| Steps.TakeShape | exchange-core/matching_engine.h:1387-1400 | filling a resting order in place keeps sorting, caches, index and pool accounting |
| Steps.SettleShape | exchange-core/matching_engine.h:1436-1477 | revealing the next tranche, or removing the order and freeing its slots, keeps them too |
| Steps.RestShape | exchange-core/matching_engine.h:1575-1603 | resting an order, or cancelling it for want of a level, keeps them too |
| Steps.TakeMirrors | exchange-core/matching_engine.h:1431-1434 | the Fill event keeps the replayed feed equal to the visible book |
| Steps.SettleMirrors | exchange-core/matching_engine.h:1445-1459 | the Add event of a revealed tranche does, and removal needs no event |
| Steps.PullMirrors | exchange-core/matching_engine.h:397-401 | the Cancel event does |
| Steps.RestMirrors | exchange-core/matching_engine.h:1591-1595 | the Add event of a resting order does |
| Matching.TradeStepInv | exchange-core/matching_engine.h:1387-1485 | a trade against a resting order keeps every part of the invariant |
| Matching.TradeStepMirrors | exchange-core/matching_engine.h:1431-1459 | and keeps the replayed feed equal to the book |
| Matching.MatchStepInv | exchange-core/matching_engine.h:1387-1485 | and credits the aggressor in hand with the quantity |
| Matching.GoneMeansTraded | exchange-core/matching_engine.h:1436-1477 | a resting order leaves the book by trading exactly when all of it, hidden part included, has traded |
| Matching.WindPut | exchange-core/matching_engine.h:1371-1485 | committing a pending fill on the stored level is committing it on the level as committed so far |
| Matching.UnwindOne | exchange-core/matching_engine.h:1510-1518 | putting one fill back gives the queue with one fill fewer taken |
| Priority.FifoMatch | exchange-core/match_algo.h:28-47 | time priority: fills exactly min(aggressor, level), one entry per order, equal to the reference list |
| Priority.FifoGives | exchange-core/match_algo.h:28-47 | each order gets what the earlier ones leave, up to what it shows |
| ProRata.ProRataMatch | exchange-core/match_algo.h:76-142 | fills exactly min(aggressor, level); each order gets the floor of its share, and the first orders one lot more until the residue is gone |
| ProRata.ResidueSmall | exchange-core/match_algo.h:76-142 | the lots the floors leave over are fewer than the orders |
| ProRata.ThresholdMatch | exchange-core/match_algo.h:171-243 | fills exactly min(aggressor, level); shares below the threshold count as nothing, and the rest fills orders up in time priority |
| ProRata.AllocationMatch | exchange-core/match_algo.h:255-334 | fills exactly min(aggressor, level); left-over lots go to an order only when every larger, or as large and earlier, one is full |
| Split.SplitMatch | exchange-core/match_algo.h:361-467 | fills exactly min(aggressor, level): the FIFO part in time priority, the rest proportionally to what is left; all of it FIFO at 100 per cent; at most one entry more than orders, and for the whole level exactly one more when the FIFO part leaves an order half filled |
| Split.SplitEntries | exchange-core/match_algo.h:374-464 | the two phases name an order twice only where the first leaves it half filled |
| Split.ZeroOnlyLast | exchange-core/match_algo.h:361-467 | a reported remainder of zero is the order's last entry |
| Priority.LmmMatch | exchange-core/match_algo.h:492-568 | fills exactly min(aggressor, level), one entry per order; market makers get at least their capped percentage; with percentage 0 or no market makers the result is FifoMatch's |
| Priority.TopLmmMatch | exchange-core/match_algo.h:593-712 | fills exactly min(aggressor, level), one entry per order: top order, market makers, then everyone |
| Priority.TopThenMmEntitles | exchange-core/match_algo.h:593-712 | the top order and the market makers get at least their capped percentages |
| Gtbpr.GtbprMatch | ice/gtbpr_match.h:60-223 | fills exactly min(aggressor, level): priority fill, time-weighted floors over exact rationals, then lots in rounds; no round is ever without a taker |
| TimeShare.BasesExact | ice/gtbpr_match.h:73-150 | those floors in whole numbers: the pool times size times one plus so much per second of age, over the sum, capped at the size; the first order at the collar gets its lots off the top |
| TimeShare.DefaultBases | ice/gtbpr_match.h:40-150 | the same with the default collar, cap and factor |
| TimeShare.OlderNoLess | ice/gtbpr_match.h:96-150 | of two orders that show the same, the one that has waited longer gets no less |
| TimeShare.PlainShares | ice/gtbpr_match.h:96-150 | where no order is older than now the floors are those of plain pro-rata on what the priority lots leave |
| TimeShare.EngineShares | ice/gtbpr_match.h:40-150 | so they are whenever the engine calls the policy, which it does without a clock |
| Entitled.ThresholdOwes | exchange-core/match_algo.h:171-243 | a floor that reaches the threshold is honoured, a smaller one counts for nothing, and more goes to an order only when all before it are full |
| Entitled.LargestOwes | exchange-core/match_algo.h:255-334 | every floor is honoured, and more goes to an order only when all larger, or as large and earlier, are full |
| Entitled.SplitOwes | exchange-core/match_algo.h:361-467 | an order gets what the FIFO part leaves it in time priority and the floor of its share of the rest |
| Policies.MatchLevel | exchange-core/matching_engine.h:1368-1372 | every policy fills exactly min(aggressor, level), overfills nobody, gives each order what its own rule says, writes exactly one entry per order served, or one per phase that serves it, and writes the first entry for the order its rule begins with |
| Policies.EveryOrder | exchange-core/matching_engine.h:1368-1372 | whatever the policy, a quantity that takes the whole level needs an entry for each order |
| Determined.GiftsUnique | exchange-core/match_algo.h:28-712 | a policy's rule and the total settle what every order gets |
| Compare.ZeroThreshold | exchange-core/match_algo.h:158-162 | threshold 0 equals pro-rata if and only if one lot fills every order that gets a left-over lot, but the last |
| Compare.ZeroSplit | exchange-core/match_algo.h:349-351 | the same for the split policy without a FIFO part |
| Compare.ZeroThresholdDiffers | exchange-core/match_algo.h:158-162 | three orders of ten and an aggressor of twenty fail the condition |
| Compare.ToppedUnique | exchange-core/match_algo.h:197-228 | filling up in time priority is determined by the floors and the total |
| Progress.MatchStepAdvances | exchange-core/matching_engine.h:1352-1485 | a committed fill is at the best price, within the limit, with another party, and leaves less to do |
| Progress.CancelAdvances | exchange-core/matching_engine.h:1639-1723 | a self-match cancel of the resting order keeps the invariant and leaves fewer orders ahead |
| Engine.MatchingEngine.constructor | exchange-core/matching_engine.h:115-123 | a new engine satisfies the invariant, mirrors its empty feed and is uncrossed |
| Engine.MatchingEngine.CommitFill | exchange-core/matching_engine.h:1387-1485 | one pending fill becomes one trade; the remaining fills stay pending |
| Engine.MatchingEngine.UndoFills | exchange-core/matching_engine.h:1510-1518 | gives back exactly the uncommitted fills: the state is as if the policy had not taken them |
| Engine.MatchingEngine.ApplySmp | exchange-core/matching_engine.h:1639-1723 | cancels the newest, the oldest, both or nobody; the aggressor survives unless it is one of them |
| Engine.MatchingEngine.MatchBestLevel | exchange-core/matching_engine.h:1367-1485 | one turn of the loop is the policy's fills for the best level committed in order, all or up to a self-match and the cancels it calls for; it keeps the invariant, what is left to do shrinks, and the fills fit the buffer of 256 |
| Engine.MatchingEngine.MatchLoop | exchange-core/matching_engine.h:1351-1498 | terminates after a number of such turns; the aggressor is cancelled, filled, or nothing acceptable is left, unless the last turn halted the market; the market is halted exactly when the last trade is at a daily limit or beyond the volatility threshold, and no turn follows one that halts it |
| Outcomes.HaltOutcome | exchange-core/matching_engine.h:1489-1497 | after a turn the session is LockLimit, VolatilityAuction or as before, as the session before, the last trade price and the reference decide; no turn follows a price that stops the market |
| Outcomes.WorkOutcome | exchange-core/matching_engine.h:1500-1571 | a worked order is left on the book, last at its price, exactly when it is a limit order neither IOC nor FOK with something left, not taken by a self-match, and a level is to be had; otherwise it is gone, with the notice its end calls for |
| Outcomes.SmpOutcome | exchange-core/matching_engine.h:1379-1387 | a turn stops at an order of a self-matching account, which is cancelled with a notice unless the newest is to be; the aggressor goes on only if the oldest is to be |
| Parties.MatchHonest | exchange-core/matching_engine.h:1389-1427 | a trade of matching names the aggressor and a resting order of the other side, with their accounts, at a price both accept |
| Engine.MatchingEngine.ComputeMatchable | exchange-core/matching_engine.h:1764-1783 | the visible quantity at acceptable prices |
| Engine.MatchingEngine.CheckDailyLimit | exchange-core/matching_engine.h:1192-1219 | locks the market exactly when the last trade is at a limit |
| Engine.MatchingEngine.PostMatch | exchange-core/matching_engine.h:1522-1571 | filled, cancelled as IOC or FOK remainder, or rested |
| Engine.MatchingEngine.MatchOrder | exchange-core/matching_engine.h:1327-1506 | the order is worked turn by turn and meets the one end its type calls for; keeps the invariant, the mirror and, with halts off, uncrossedness; with halts off a FOK order is filled with its whole quantity or cancelled untouched if and only if the pre-check fails, it is cancelled by a self-match that comes first, or it hides nothing and strangers hold enough or it meets none of its own, as the self-match action has it; among strangers alone, if and only if the pre-check fails or it hides nothing |
| FillOrKill.FokExactly | exchange-core/matching_engine.h:1327-1571 | that condition, on the book the order finds, for every policy and all three self-match actions |
| FillOrKill.FokPartly | exchange-core/matching_engine.h:1327-1571 | with halts off a FOK order trades some of what it shows and not the rest if and only if the pre-check passes and strangers hold something but too little, or it meets one of its own and not first, as the self-match action has it |
| FillOrKill.ShownFilled | exchange-core/matching_engine.h:1336-1349 | among strangers a FOK order that passes the pre-check is filled with all it shows and no more |
| FillOrKill.FirstNamed | exchange-core/matching_engine.h:1367-1387 | a turn's first fill is a self-match if and only if the order its policy begins with is the order's own |
| FillOrKill.TurnSupply | exchange-core/matching_engine.h:1367-1485 | a turn the order survives takes from what strangers hold exactly what it fills |
| FillOrKill.TurnClear | exchange-core/matching_engine.h:1367-1485 | a whole turn neither clears nor blocks the rest of the way |
| Partial.PartFilled | exchange-core/matching_engine.h:1336-1349 | a reachable book on which the pre-check passes and a FOK order is filled in part, under all three self-match actions |
| Partial.TipFilled | exchange-core/matching_engine.h:1336-1349 | on the same book a FOK order of a third account that shows half its quantity is done with that half |
| Room.BestFits | exchange-core/matching_engine.h:1368-1372 | where every price has room, the best level's fills fit the buffer |
| Room.AdvancedRoomy | exchange-core/matching_engine.h:1352-1498 | matching leaves every price with room |
| Room.RestRoomy | exchange-core/matching_engine.h:1575-1603 | so does resting what is left |
| Room.UnparkRoomy | exchange-core/matching_engine.h:1618-1632 | a triggered stop comes with the room it had reserved |
| Overruns.FifoFits | exchange-core/match_algo.h:28-47 | in time priority m places are enough if and only if there are no more orders or the first m show the quantity |
| Overruns.LevelRoom | exchange-core/matching_engine.h:1368-1372 | under every policy the buffer has room for all quantities if and only if the level needs at most 256 places, one for each order and, for a split, one more where some quantity serves an order in both parts and leaves nobody out |
| Overruns.SplitNeeds | exchange-core/match_algo.h:361-467 | a split writes one entry more than orders exactly then, and never two |
| Overruns.BufferOverrun | exchange-core/matching_engine.h:1368-1372 | on a reachable book of 257 orders every policy overruns it |
| Overruns.SplitOverrun | exchange-core/match_algo.h:361-467 | on a reachable book of 256 orders every split in two parts does |
| Lifecycle.FokFills | exchange-core/matching_engine.h:1336-1349 | what the pre-check counted the loop can take: among strangers a FOK order that passes gets all it shows, its whole quantity if and only if it hides nothing |
| Engine.MatchingEngine.InsertIntoBook | exchange-core/matching_engine.h:1575-1603 | rests the order, or cancels it when no level is free; no slot is lost |
| Engine.MatchingEngine.InsertStop | exchange-core/matching_engine.h:1307-1323 | parks the order at its stop price, or cancels it when no level is free |
| Engine.MatchingEngine.RemoveStop | exchange-core/stop_book.cc:39-59 | takes one stop out and frees an emptied level |
| Engine.MatchingEngine.NextTriggered | exchange-core/stop_book.cc:65-93 | looking at the two heads decides for every stop in both lists, and a buy stop comes before a sell stop |
| Stops.HeadsDecide | exchange-core/stop_book.cc:117-139 | if neither head triggers no stop does |
| Engine.MatchingEngine.CheckAndTriggerStops | exchange-core/matching_engine.h:1610-1635 | the cascade is a sequence of head stops that trigger, each converted and worked; it terminates, keeps the invariants, and leaves no triggered stop |
| Outcomes.FireOutcome | exchange-core/stop_book.cc:83-93 | a stop fires when the last trade has risen or fallen to its price, a sell stop only when no buy stop does |
| Engine.MatchingEngine.NewOrder | exchange-core/matching_engine.h:133-290 | accepts if and only if every listed condition holds and otherwise rejects with the reason of the first that fails, changing nothing; an accepted order is parked, booked, or worked with the cascade it sets off; keeps every invariant, never pairs a self-matching couple, leaves no triggered stop |
| Checks.NewJudged | exchange-core/matching_engine.h:139-216 | the conditions of new_order, one by one over the request and the state, decide acceptance and the reason |
| Checks.CancelJudged | exchange-core/matching_engine.h:294-314 | so do those of cancel_order |
| Checks.ModifyJudged | exchange-core/matching_engine.h:330-357 | and those of modify_order |
| Checks.RestoreJudged | exchange-core/matching_engine.h:499-536 | and those of restore_order |
| Outcomes.ClosedNothing | exchange-core/matching_engine.h:196-198 | in a closed market nothing is entered, cancelled, modified or busted |
| Outcomes.NewOutcome | exchange-core/matching_engine.h:219-251 | an accepted order that is held afterwards has every term of the request, and is filled by its trades |
| Outcomes.StopOutcome | exchange-core/matching_engine.h:254-265 | an accepted stop waits last at its stop price with all it asked for, unless no level was to be had |
| Outcomes.CollectOutcome | exchange-core/matching_engine.h:267-290 | in a collecting phase nothing trades; a limit order rests last at its price and a market order is cancelled |
| Outcomes.NoRemainder | exchange-core/matching_engine.h:1522-1560 | nothing of a market, IOC or FOK order is held once it has been matched |
| Parties.OpKept | exchange-core/matching_engine.h:133-1163 | after any operation every order held is one held before under the same terms, a stop become what it turns into, or the one the operation brings; every trade is between two of them, or is what a leg asks for, and sets the last trade price |
| Parties.MoreMade | exchange-core/matching_engine.h:133-1163 | so is every trade of a run |
| Positions.PositionIs | exchange-core/position_tracker.h:34-42 | a tracked account's position is what it bought less what it sold in the trades that stand |
| Lifecycle.AcceptInv | exchange-core/matching_engine.h:219-251 | the accepted order is in hand with fresh identifier, unfilled, and its quantities add up |
| Engine.MatchingEngine.Find | exchange-core/matching_engine.h:302-306 | an indexed identifier leads to the one place that holds the order |
| Engine.MatchingEngine.CancelOrder | exchange-core/matching_engine.h:294-318 | removes exactly the named order, or rejects and changes nothing |
| Engine.MatchingEngine.SweepIndex | exchange-core/matching_engine.h:432-482 | expiry and mass cancel remove exactly the orders they are for, count them, and notify exactly their identifiers, each once |
| Outcomes.SweepOutcome | exchange-core/matching_engine.h:432-482 | expiry leaves exactly the orders of another time in force or a later time, a mass cancel exactly those of other accounts, or none |
| Engine.MatchingEngine.ModifyOrder | exchange-core/matching_engine.h:323-427 | accepts if and only if every listed condition holds, and otherwise gives the reason of the first that fails; then the named order is amended down in place, or taken off the book and worked again with its new terms; keeps the invariants, and the mirror unless the amendment changes what the order shows |
| Outcomes.ModifyOutcome | exchange-core/matching_engine.h:358-426 | whatever is held under its identifier after a modification has the price and quantity asked for, everything else its own, and has been filled with what it had and its trades since |
| Outcomes.ModifyTrades | exchange-core/matching_engine.h:405-426 | the modified order trades as itself and within its new price |
| Outcomes.ModifyPlace | exchange-core/matching_engine.h:358-412 | a lower quantity at the same price, where the exchange amends down, keeps its place and trades nothing; anything else takes the order off the book and works it anew |
| Engine.MatchingEngine.ReEnter | exchange-core/matching_engine.h:390-426 | a replaced order is matched afresh under its identifier, still filled by its standing trades |
| Cancels.AmendInv | exchange-core/matching_engine.h:360-386 | amending down in place keeps the invariant and uncrossedness |
| Cancels.AmendTold | exchange-core/matching_engine.h:360-386 | the feed still replays to the book if and only if the order shows what it did |
| Silence.SwapMirrors | exchange-core/matching_engine.h:360-386 | the same for any order rewritten in its place |
| Engine.MatchingEngine.BustTrade | exchange-core/matching_engine.h:565-621 | takes effect at most once; gives the quantity back to those parties still held; reverses both positions; keeps the invariant if and only if the trade had two orders, or was an implied fill of a gone order and an untracked account |
| Busts.BustInv | exchange-core/matching_engine.h:565-621 | that condition, for all states |
| Busts.BustTold | exchange-core/matching_engine.h:579-600 | the feed still replays to the book if and only if neither order of the trade is left |
| Busts.BustReconciled | exchange-core/matching_engine.h:579-600 | every order is again filled by exactly its standing trades, unless an implied fill is given back twice |
| Engine.MatchingEngine.ApplyImpliedFills | exchange-core/matching_engine.h:1035-1163 | all legs are applied or none; one trade per leg at its price and quantity; invariants, mirror and uncrossedness kept |
| Parties.LegKept | exchange-core/matching_engine.h:1054-1062 | the trade of a leg is its order's: identifier, account and side |
| Engine.MatchingEngine.ValidateLegs | exchange-core/matching_engine.h:1037-1044 | passes exactly when every leg names a held order that shows enough |
| Implied.LegsStay | exchange-core/matching_engine.h:1046-1160 | applying one leg leaves the other legs of a batch valid |
| Auction.SumVolume | exchange-core/matching_engine.h:698-708 | the quantity a side offers at a price |
| Auction.Candidates | exchange-core/matching_engine.h:675-691 | the prices of both sides, ascending, each once |
| Auction.CalculateAuctionPrice | exchange-core/matching_engine.h:672-745 | finds a price exactly when the book is crossed; it trades the most of every integer price and is lexicographically best of the level prices |
| Auction.LevelSuffices | exchange-core/matching_engine.h:672-745 | whatever trades at any price trades at the price of a bid level too |
| Crossing.CrossInv | exchange-core/matching_engine.h:778-884 | a fill between two resting orders keeps the invariant |
| Crossing.CrossMirrors | exchange-core/matching_engine.h:848-854 | and keeps the replayed feed equal to the book |
| Crossing.FrontVolume | exchange-core/matching_engine.h:767-884 | taking n from the front takes n, or everything, from the volume at every price |
| Crossing.FrontAdds | exchange-core/matching_engine.h:767-884 | taking a and then b from the front is taking a + b |
| Crossing.ClearedUncrosses | exchange-core/matching_engine.h:758-891 | taking the cleared volume from both fronts leaves no bid at or above an ask |
| Crossing.WalkedStep | exchange-core/matching_engine.h:778-884 | each fill of the walk extends a run of trades at one price between willing parties, in price-time priority when nothing is hidden |
| Wholes.FillWhole | exchange-core/matching_engine.h:1791-1836 | a fill takes exactly its quantity from a queue's whole, hidden part included, whatever is revealed |
| Wholes.TakenUncrosses | exchange-core/matching_engine.h:758-891 | with n taken from both sides nothing crosses if and only if n covers what they hold in common at every price |
| Crossing.WalkUncrosses | exchange-core/matching_engine.h:767-884 | the walk takes that much, so the condition decides |
| Icebergs.IcebergBookIs | exchange-core/matching_engine.h:265-276 | an iceberg bid and an ask entered before the open satisfy the invariant and the mirror |
| Icebergs.IcebergStaysCrossed | exchange-core/matching_engine.h:1791-1813 | their auction matches five of ten and does not cover the rest |
| Engine.MatchingEngine.CrossOrders | exchange-core/matching_engine.h:778-884 | one fill of both orders, one trade, and which order of each queue comes next |
| Engine.MatchingEngine.SettleResting | exchange-core/matching_engine.h:1791-1836 | shows the next tranche at the back or removes the order and frees its slots |
| Engine.MatchingEngine.CrossLevels | exchange-core/matching_engine.h:767-884 | the inner walk terminates, trades something, and never more than is left to trade |
| Engine.MatchingEngine.ExecuteAuction | exchange-core/matching_engine.h:758-891 | terminates and trades exactly the computed volume at one price, bids at or above and asks at or below it, revealed tranches or not; uncrosses the book if and only if that volume covers what both sides hold in common at every price, hidden quantity counted; in price-time priority when nothing in reach is hidden; every trade is between a bid and an ask of the book it found, with their accounts, and every account gains what its bids bought less what its asks sold |
| Parties.CrossHonest | exchange-core/matching_engine.h:785-800 | a fill of the auction names a bid and an ask with their accounts, at a price both accept |
| Positions.AuctionSettles | exchange-core/matching_engine.h:785-800 | every tracked account gains in an auction exactly what its bids bought less what its asks sold |
| Outcomes.RevealOutcome | exchange-core/matching_engine.h:1788-1817 | an exhausted tranche is followed at the back of the queue by one of the size displayed, or all that is left if that is less; with nothing left the order is gone |
| Runs.EnterKeeps | exchange-core/matching_engine.h:632-647 | a change of session keeps the invariant and the mirror |
| Restores.RestoreInv | exchange-core/matching_engine.h:493-556 | a restored order keeps the invariant if and only if it is a limit order with consistent quantities and exactly the fills on record, or no level was free; the mirror is kept |
| Outcomes.RestoreOutcome | exchange-core/matching_engine.h:538-556 | a restored order rests last at its price as it was, without a trade, unless no level was to be had, and new identifiers stay clear of it |
| Engine.MatchingEngine.RestoreOrder | exchange-core/matching_engine.h:493-556 | accepts if and only if every listed condition holds, and otherwise gives the reason of the first that fails, changing nothing; then the order rests unmatched under its old identifier, with that condition |
| Engine.MatchingEngine.Step | exchange-core/matching_engine.h:133-661 | new, cancel, expiry, mass cancel, modify, bust, implied fills, auction, session change, unlock and restore have exactly their effect when owed and none when not; they keep the invariant and room for the fills, and only extend the trade tape; the mirror is kept if and only if the feed tells the whole operation; those of a matching session keep the book uncrossed |
| Engine.MatchingEngine.Run | exchange-core/matching_engine.h:133-1163 | every operation of a sequence in turn has its effect, the invariants hold throughout, the changes read off the effects lead from the old state to the new one, and every trade is between two orders an operation could see, at a price both accept |
| Ring.StepSafe | exchange-core/spsc_ring_buffer.h:39-61 | every atomic step of either thread, with any stale load, keeps the invariant, positions wrapping around |
| Ring.NoRace | exchange-core/spsc_ring_buffer.h:45-60 | the slot about to be written is never the slot that may be being read |
| Ring.NoOverwrite | exchange-core/spsc_ring_buffer.h:45 | nor any unread slot |
| Ring.StepRefines | exchange-core/spsc_ring_buffer.h:39-61 | publishing appends to a queue that is not full, retiring takes its head, no other step changes it |
| Ring.RunIsFifo | exchange-core/spsc_ring_buffer.h:39-61 | under every interleaving what came out is the first part of what went in, and the rest is inside |
| Ring.NewBufferIsFifo | exchange-core/spsc_ring_buffer.h:30-61 | so it is for whatever two threads do with a new buffer |
| Ring.RefusedPush | exchange-core/spsc_ring_buffer.h:42-44 | a push is refused exactly when the queue was full as far as the producer could see |
| Ring.EmptyPop | exchange-core/spsc_ring_buffer.h:55-57 | a pop comes up empty exactly when everything the consumer could see had been taken |
| Ring.SizeInRange | exchange-core/spsc_ring_buffer.h:63-69 | size is between 0 and the capacity for either thread |
| Ring.SizeOfLoads | exchange-core/spsc_ring_buffer.h:63-69 | of two loaded counts, size is in range if and only if no more pops than pushes were loaded |
| Ring.OutsiderWraps | exchange-core/spsc_ring_buffer.h:63-69 | a run with a push and a pop between an outside caller's two loads, and the wrapped value it gets |
| Ring.RingBuffer.TryPush | exchange-core/spsc_ring_buffer.h:39-48 | calls that do not overlap: appends exactly when there is room |
| Ring.RingBuffer.TryPop | exchange-core/spsc_ring_buffer.h:52-61 | takes the head exactly when there is one, else leaves the item alone |
| RateLimit.RateTracker.CheckAndIncrement | exchange-core/rate_tracker.h:47-76 | moves the account's own window and no other; disabled, untagged and unknown accounts |
| RateLimit.RateBound | exchange-core/rate_tracker.h:47-76 | at most max per window and at most twice max in any stretch of that length, for all traffic in order of time |
| RateLimit.TurnedAway | exchange-core/rate_tracker.h:69-72 | a message is turned away exactly when its window has let max through |
| RateLimit.TwiceIsReached | exchange-core/rate_tracker.h:61-67 | twice max is reached, for every limit and every window of two ticks or more |
| Pool.ObjectPool.Allocate | exchange-core/object_pool.h:47-57 | hands out a slot nobody holds, or none exactly when all are out |
| Pool.ObjectPool.Deallocate | exchange-core/object_pool.h:62-67 | the slot is free and next; slots still held keep their contents |
| Pool.ObjectPool.Reset | exchange-core/object_pool.h:72-75 | all slots are free |
| Pool.ObjectPool.Available | exchange-core/object_pool.h:77-79 | counts the free slots; the others are exactly those handed out |
| Chain.Links.PushBack | exchange-core/intrusive_list.h:15-21 | the node is last, links both ways agree, no other node is relinked |
| Chain.Links.PushFront | exchange-core/intrusive_list.h:24-30 | the node is first |
| Chain.Links.InsertBefore | exchange-core/intrusive_list.h:33-40 | the node is right before the given one |
| Chain.Links.InsertAfter | exchange-core/intrusive_list.h:43-50 | the node is right after the given one |
| Chain.Links.Remove | exchange-core/intrusive_list.h:53-60 | the others keep their order, the node is unlinked |
| Chain.Links.Size | exchange-core/intrusive_list.h:66-70 | the number of nodes |
| JournalText.GetLines | test-harness/journal_parser.cc:72-80 | the lines of a text |
| JournalText.Split | test-harness/journal_parser.cc:267-275 | the white-space separated tokens of a line |
| JournalText.ParseKvTokens | test-harness/journal_parser.cc:223-241 | key and value at the first '=', the last token for a key winning, a token without '=' refused |
| JournalText.ParseOne | test-harness/journal_parser.cc:86-221 | one line: skipped, configuration, action, expectation or error with its line |
| JournalText.ParseText | test-harness/journal_parser.cc:72-221 | the whole text; what comes out is always printable |
| JournalText.ActionToLine | test-harness/journal_writer.cc:114-454 | every field once, known ones first in their order, others in any order |
| JournalText.ConfigToLine | test-harness/journal_writer.cc:100-112 | the eight printed settings in order |
| JournalText.ToText | test-harness/journal_writer.cc:572-592 | configuration line, then for each entry a blank line, its action and its expectations |
| JournalProofs.KindBack | test-harness/journal_parser.cc:133-187 | every action name is read back as its action |
| JournalProofs.IntBack | test-harness/journal_parser.cc:249-252 | every 64-bit number is read back as itself |
| JournalProofs.PrintedBack | test-harness/journal_writer.cc:572-592 | a clean journal is read back, settings that are not printed at their defaults |
| JournalProofs.ParsedIsClean | test-harness/journal_parser.cc:86-221 | whatever is read could be printed and read again |
| JournalProofs.RoundTrip | test-harness/journal_writer.cc:572-592 | printing and reading gives the journal back if and only if its tokens have no white space, its keys no '=', its event types are not empty, its numbers fit, and settings that are not printed have their defaults |

## Left out

- publish_indicative_price and the read-only accessors: they would add only easy members.
- Order and market-data callbacks other than the order feed, cancels and trades; depth updates and top of book are not replayable from what is emitted.
- Levels.LinkLevel: works on sequences; the links are rewired in `Books.Books.LinkLevel`.
- Levels.InsertOrder: works on sequences; links and back-pointers are in `Books.Books.Insert`.
- Levels.RemoveOrder: works on sequences; links and back-pointers are in `Books.Books.RemoveOrder`.
- Engine.MatchingEngine.RemoveStop: works on sequences; links are in `Books.Books.RemoveStop`.
- Engine.MatchingEngine.MatchBestLevel: assumes at most 256 orders at a price, resting, waiting and in hand (255 for a split in two real parts), because the source writes past its buffer otherwise; `Room.AdvancedRoomy` and its companions show that matching and the cascade keep this, and entering an order owes it.
- Engine.MatchingEngine.NewOrder: assumes the same room at the order's price.
- Engine.MatchingEngine.MatchLoop: assumes one of the three cancelling self-match actions, because with Decrement or None the source's loop makes no progress at all.
- Engine.MatchingEngine.MatchOrder: assumes one of the three cancelling self-match actions; the condition for FOK orders is for sessions with price limits and volatility interruption off.
- Engine.MatchingEngine.CheckAndTriggerStops: assumes one of the three cancelling self-match actions.
- Engine.MatchingEngine.ModifyOrder: assumes a resting limit order and a new quantity not below what is filled, because the source computes with these unchecked, and room at the new price.
- Engine.MatchingEngine.ApplyImpliedFills: assumes distinct resting limit orders, because legs are validated one by one.
- Engine.MatchingEngine.RestoreOrder: the market-maker and top-order flags of the reused slot are part of the order restored.
- Gtbpr.GtbprMatch: weights are exact rationals where the source uses floating point.
- Slots.Slots.ParkOrder: when no level is to be had the source also writes the price of the slot it has just freed, which nothing reads.
- 64-bit overflow of prices and quantities in the engine; the ring buffer's positions and the journal's numbers do wrap or are checked.
- The class `MatchingEngine` holds its lists as sequences; the storage follows it change by change (`Changes`, `Follow`), it is not a field of it.
- Timestamps of events, client order identifiers and the texts of journal errors; the error kind and line are kept.
- Recorded events are not printed as expectation lines; expectations that were parsed are.
- Simulators, gateways, market-data encoders, product tables, spread books, dashboards and tools.
