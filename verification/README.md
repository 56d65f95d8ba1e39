# The flash-sale purchase protocol, modelled and verified

A buyer asks for the flash-sale product. `EnqueueSeckill` writes a WAITING entry
into Redis and inserts a job; a worker runs `HandleSeckill`, which degrades late
jobs, marks PROCESSING, runs a saga over the user and the product service, and
writes a terminal status or returns an error to be run again. The project models
this as step machines over the shared state (the `users` and `products` rows, the
Redis entries, the job queue, the coordinator's log) and proves what holds in
every run, in every interleaving. Where the Go code updates state in place, a
class with the same fields and methods is proved against the functions the
machines are built from. `dafny verify dfyconfig.toml` checks everything.

| files | part |
|---|---|
| `Ints`, `Rows`, `Wire`, `Identifiers` | integer widths, the four UPDATE statements, the Protocol Buffers payload path ("Encoding" guide), IDs and keys |
| `Coordinator`, `Conservation`, `Serializability`, `SaleCount`, `SagaRecords`, `Effects`, `Refusals`, `LostAnswers` | the two-branch saga, any number of them interleaved, why it refuses, and what lost answers do to it |
| `RequestStore`, `Lifecycle`, `Usecase` | request entries and the Lua script, the handler's decisions, the use case class |
| `Protocol`, `Delivery`, `Outcomes`, `Statuses`, `Buyers`, `Successes`, `Settling`, `Refinement` | the whole protocol as one machine, its invariant, its theorems, termination, and the use case as runs of it |
| `Misleading`, `ShortHour` | concrete runs of the protocol in which a tempting claim fails |
| `CacheAside`, `Staleness`, `FillSection`, `CacheRuns`, `ReadThrough`, `ProductRepo` | cache-aside reads against writers, how old answers get, the locked section, concrete runs, a read as a run, the product repository |
| `UserRepo`, `SagaClient` | the user repository and service, the saga client |

A run is any finite sequence of actions; an action that is not enabled does
nothing. So a theorem about all sequences is a theorem about all interleavings.

## Assumptions

The code behind these contracts is not part of this model.

- Coordinator: branches run in the order they were added; a GID starts one saga
  only; when a branch fails, exactly the branches that succeeded are compensated,
  in reverse, each once; a compensation that errs is tried again; a branch call
  that is not answered had no effect. The participants keep no barrier of their
  own, so "restore only after a successful deduct of the same saga, once" comes
  from here alone. `Rows.Ledger`, `Rows.NeverNegative` and
  `Rows.CompensationUndoesIff` do not use it. `LostAnswers` drops the last point: a
  call may take effect unheard.
- Sync (only where `cfg.sync` is required): Submit answers once its saga has
  settled, nil exactly for a commit, else with that saga's error. The handler
  reads the error this way; the saga client does not visibly ask for it.
  `Misleading.SuccessNeedsSync` shows what is lost without it.
- Queue: attempts of one job do not overlap; a job runs again only if the handler
  returned an error, a fixed number of times; an insert error inserted nothing.
- Reuse: callers that draw the same request ID create it within the entry's life.
- Redis: a call that returns an error had no effect; the script is atomic; an
  entry answers until its expiry instant has passed; TTL is in seconds, rounded
  to the nearest; IDs are small enough for the script's JSON library.
- Lock: granted to one caller at a time, and again once its 5 s have passed; a failed
  unlock leaves it to them.
- Flight: calls can join a call until it returns, and a joined call joins no other.
- Timely (only where `timely` is true): no lock holder is caught by the expiry, and
  joined calls return at the instant the call they joined returns.
- The configured amount is 1 or more wherever `amount >= 1` is required. The code
  turns 0 into 1 and does not reject negative amounts.
- Clocks never run backwards, and all processes read the same one.

## What the proofs brought to light

- A DEGRADED request may have been bought: the saga commits, the write of SUCCESS
  fails, and the redelivered job is late. `Statuses.StatusTellsTruthIff` shows
  that this is the only way a terminal status hides a purchase.
- A buyer can be refused for low balance while another saga of theirs, itself
  about to be compensated, holds the difference (`Serializability.SpuriousRefusal`);
  `Serializability.RefusedBuyIff` says exactly when.
- A user registered between the two statements of `DeductBalance` is told that the
  balance is too low (`UserRepo.NewcomerIsMisjudged`).
- The cache can keep an old row although every call succeeded
  (`CacheRuns.StaleWithoutFailure`), and a call can return a value overwritten
  before the call began without any cached copy (`CacheRuns.FollowerGetsOldRow`).
- One lost answer charges a buyer twice (`LostAnswers.DoubleCharge`), since the services
  do not recognise a repeated call; `LostAnswers.ChargedOncePlusLost` bounds the damage.
- Restoring what was never deducted inflates the row (`Rows.RefusedDeductInflates`,
  with the exact condition in `Rows.CompensationUndoesIff`).
- The hour that an entry is meant to outlive its budget can be short by almost 2 ms
  (`ShortHour.HourIsShort`).

Where comments and code differ, the model follows the code:

- `EnqueueSeckill` is described as atomic (app/product/internal/biz/product.go:175);
  it is a Redis call followed by a queue call, modelled as separate steps.
- The script is described as preserving the TTL
  (app/product/internal/data/product.go:187); it drifts by up to half a second per
  update, and adds an hour when less than half a second is left.
- The balance is charged `amount` units, whatever the product's price
  (app/product/internal/data/saga.go:31-40).

## Model

| member | source | states |
|---|---|---|
| `Serializability.Serializable` | app/product/internal/data/saga.go:29-42 | Whatever the interleaving of any number of sagas, once none is half-way the stock and the balances equal what buying the committed sagas atomically, in commit order, leaves behind; every one of those purchases is accepted, and the commit list is exactly the committed sagas, each once |
| `Serializability.Simulation` | app/product/internal/data/db/queries.sql.go:21-27 | Forward simulation: each single step of the interleaved run is either one successful atomic purchase on the database seen without half-way sagas, or no change of it |
| `Serializability.SellIsBuy` | app/product/internal/data/product.go:84-101 | The stock deduction is the instant at which the atomic purchase happens: the check of balance and stock passes there and both rows change as the purchase says |
| `Serializability.RefusedBuyIff` | app/user/internal/data/user.go:129-146 | In every run, at the point of the commit order where a branch is refused, the atomic purchase would be accepted if and only if it was the first branch and the opening balance and stock cover the commits so far and this one; it then takes another saga of the buyer in flight. So every SOLD_OUT refusal, and every refusal of a buyer with nothing else in flight, is a refused purchase |
| `Serializability.RefundedBuyIff` | app/user/internal/data/user.go:86-104 | Once all sagas have settled, a purchase, that of a refused buyer included, is possible if and only if the opening balance and stock cover all the commits and this one |
| `Serializability.CanBuyIff` | app/product/internal/data/saga.go:29-42 | In every reachable state the next atomic purchase is accepted in commit order exactly when the opening tables cover the earlier commits and it |
| `Serializability.SpuriousRefusal` | app/user/internal/data/user.go:137-146 | It happens: in a concrete run a buyer is refused for low balance although, once all sagas have settled, the purchase would be accepted |
| `SaleCount.ExactSaleCount` | app/product/internal/data/db/queries.sql.go:12-14 | Neither overselling nor underselling: with buyers who can pay for all of their own requests and branches retried until the database answers, N settled sagas end in exactly min(N, stock / amount) commits |
| `SaleCount.FirstBranchHolds` | app/user/internal/data/db/queries.sql.go:23-25 | The first branch of a buyer who can pay for all of their requests is never refused, whatever their other sagas hold at that instant |
| `SaleCount.SalesFit` | app/product/internal/data/db/queries.sql.go:12-14 | At every instant the sales so far fit the opening stock, and once less than one amount is left they exhaust it up to less than one amount |
| `Conservation.Conservation` | app/product/internal/data/saga.go:30-40 | In every reachable state each stock row has dropped by exactly what committed sagas took and each balance by exactly what that buyer's sagas hold; with no saga half-way, total balance spent equals total stock sold |
| `Conservation.CompensationAlwaysLands` | app/user/internal/data/db/queries.sql.go:51-66 | Although the restore has no guard, a compensation issued by the coordinator always finds its row and cannot overflow the INT column |
| `Conservation.BranchCases` | app/product/internal/data/saga.go:30-40 | A branch call does nothing, or is one of four moves: hold the balance, sell, return the balance, refuse without touching a row |
| `Refusals.FirstBranchOutcome` | app/user/internal/data/user.go:129-146 | A first branch that is answered ends its saga as unknown user if and only if the buyer has no row, as low balance if and only if the row holds less than the amount, and holds the amount if and only if the atomic deduction succeeds; an error leaves it where it is |
| `Refusals.SecondBranchOutcome` | app/product/internal/data/product.go:84-95 | A second branch is refused as sold out if and only if the product has no row or too little stock, and commits if and only if it has enough and the difference fits the column |
| `Refusals.OtherOutcomes` | app/product/internal/data/saga.go:30-40 | A compensation keeps its reason, a settled saga stays, and a branch given up on fails with an error of its own |
| `Refusals.ReasonsAreTrue` | app/user/internal/data/user.go:137-146 | In every run a buyer without a row is never charged and never refused over stock or funds, and a buyer with a row is never called unknown |
| `Conservation.CommitsKept` | app/product/internal/data/saga.go:29-42 | No move enters a saga twice in the commit order or leaves a committed one out |
| `Conservation.StepInv` | app/product/internal/data/saga.go:29-42 | Every step of every saga keeps the conservation invariant, given a positive amount |
| `Effects.AtMostOnce` | app/product/internal/biz/product.go:216-225 | However often a GID is submitted, the tables are charged for it at most once and sold for it at most once, in step with how far its saga came: a committed one exactly once each, one that aborted never sold |
| `LostAnswers.ChargedOncePlusLost` | app/user/internal/data/db/queries.sql.go:23-38 | Without the assumption that an unanswered branch call had no effect: a GID charges its buyer in step with how far its saga came, at most once, plus once for each charge whose answer was lost |
| `LostAnswers.OffByTheUnheard` | app/product/internal/data/db/queries.sql.go:12-55 | ... and every balance and stock row is off the conservation law by exactly what the unanswered deducts took and the unanswered restores gave back |
| `LostAnswers.DoubleCharge` | app/user/internal/data/user.go:129-154 | A run in which one lost answer makes a committed purchase cost its buyer twice |
| `LostAnswers.UnheardIsTheCall` | app/product/internal/data/saga.go:30-40 | The unheard call is the one the coordinator makes: the rows end as if its answer had been heard |
| `SagaRecords.BranchEvolves` | app/product/internal/data/saga.go:29-42 | A branch call never touches the record of a settled saga and never removes one |
| `Rows.Ledger` | app/product/internal/data/db/queries.sql.go:12-55 | Under an arbitrary coordinator or outside caller, with duplicates, empty compensations, faults and overflows: every row equals its opening value less what the calls reported as taken plus what they reported as returned, and no row appears or disappears |
| `Rows.ReportsMean` | app/product/internal/data/db/queries.sql.go:12-55 | A failed call or an overflow is an error, a missing row or a refused deduct affects no row, and neither changes anything; otherwise the row alone changes, by the amount |
| `Rows.NeverNegative` | app/user/internal/data/db/queries.sql.go:23-66 | No sequence of such calls drives a row below zero when no restore carries a negative amount |
| `Rows.NeverNegativeIff` | app/user/internal/data/db/queries.sql.go:51-66 | That condition is exact, call by call: a negative restore can take some row below zero, nothing else can |
| `Rows.CompensationUndoesIff` | app/product/internal/data/db/queries.sql.go:40-42 | Deduct then restore is the identity exactly when the row held the amount and the subtraction fits the column (or nothing was there to change) |
| `Rows.RefusedDeductInflates` | app/product/internal/data/db/queries.sql.go:40-42 | Where it is not: compensating a refused deduct of a sold-out row leaves one unit in stock |
| `Wire.SagaPayloadsSurvive` | app/product/internal/data/saga.go:34-39 | The payload written as DeductBalanceRequest or DeductStockSagaReq decodes to the same ID and amount as the action's and as the compensation's message, and the int32 to int64 to int32 path keeps the amount |
| `Wire.CompatibleIff` | api/user/v1/user.proto:40-51 | One message type can stand in for another on every payload if and only if the two field numbers agree and no int64 amount meets an int32 reader |
| `Wire.CrossDecode` | api/product/v1/product.proto:75-85 | What a reader with one schema makes of bytes written with any other |
| `Wire.VarintRoundTrip` | api/user/v1/user.proto:40-43 | Base-128 varints decode to the value encoded, for all 64-bit values and whatever follows |
| `Wire.PayloadExamples` | app/product/internal/data/saga.go:34-39 | The bytes of the two payloads, on an example each |
| `Wire.NegativeExample` | api/user/v1/user.proto:40-43 | A negative number is written as its 64-bit two's complement, in ten bytes |
| `Wire.SkipsVarint` | api/user/v1/user.proto:40-51 | An unknown varint field is passed over whole |
| `Wire.SkipsFixed` | api/user/v1/user.proto:40-51 | An unknown field of four or eight bytes is passed over whole |
| `Wire.SkipsBytes` | api/user/v1/user.proto:40-51 | An unknown length-delimited field is passed over whole |
| `Wire.RejectsBroken` | api/user/v1/user.proto:40-51 | Cut-off fields and field number 0 are errors |
| `Wire.WidthsMatter` | api/product/v1/product.proto:75-85 | The stock messages read an int32 amount and the balance messages an int64 one: the former narrow a wide amount |
| `Wire.VarintTooLarge` | api/user/v1/user.proto:40-43 | A ten-byte varint beyond 64 bits is an error |
| `SagaClient.BranchesDoWhatStepsDo` | app/product/internal/data/saga.go:30-40 | There are two branches, and sent where they are addressed, through serialisation, four message types and narrowing, their four RPCs do exactly the row operations of the coordinator model; a service answers its own methods only |
| `SagaClient.CompensationRestoresTables` | app/product/internal/data/saga.go:31-40 | For each branch, action then compensation on the same bytes leaves both tables as they were, on every table where the action took effect |
| `SagaClient.SagaTakesOnce` | app/product/internal/data/saga.go:30-40 | All branches of the submitted saga together go through if and only if buyer and product hold the amount, and then take it once from each and nothing from anybody else |
| `SagaClient.SAGAData.ExecuteSeckillSaga` | app/product/internal/data/saga.go:29-42 | A new GID gets exactly two branches: DeductBalance and RestoreBalance at the user service, DeductStockSaga and RestoreStock at the product service, each with a payload that carries the amount; a GID already known keeps the saga it started |
| `Ints.NarrowKeepsIff` | app/user/internal/service/user.go:41-41 | int32(amount) keeps the amount exactly on the int32 range |
| `UserRepo.RegisteredIsLinearizable` | app/user/internal/data/user.go:129-154 | For a user registered before the call, every outcome of the UPDATE-then-SELECT deduction is the one the atomic deduction gives at the UPDATE, whatever others do in between |
| `UserRepo.LinearizableIff` | app/user/internal/data/user.go:137-146 | For any user: some instant of the call explains the outcome if and only if the user was registered at the UPDATE, or is still unknown at the SELECT, or held less than the amount at some instant in between |
| `UserRepo.NewcomerIsMisjudged` | app/user/internal/data/user.go:137-146 | The remaining case is real: a user registered between the two statements is told the balance is too low while it never was |
| `UserRepo.RegisterAdds` | app/user/internal/data/db/queries.sql.go:12-21 | A registration adds a row with the opening balance of 1000 and touches no other |
| `UserRepo.UserRepoImpl.DeductBalance` | app/user/internal/data/user.go:129-154 | Outcome, rows and cached copy after the call, for every fault and every interference; not-found and low-balance are told apart by the second statement; only a success deletes the copy |
| `UserRepo.UserRepoImpl.RestoreBalance` | app/user/internal/data/user.go:86-104 | The unguarded addition; an unknown user is no error; the copy is deleted whenever the database answered |
| `UserRepo.UserService.DeductBalance` | app/user/internal/service/user.go:40-47 | Succeeds exactly when the deduction of the narrowed amount took effect, touches no other row, and debits the requested amount if and only if it fits int32 |
| `UserRepo.UserService.RestoreBalance` | app/user/internal/service/user.go:49-56 | Succeeds unless the call fails or the narrowed amount overflows the column, touches no other row, and credits the requested amount if and only if it fits int32 |
| `ProductRepo.Queries.DeductStock` | app/product/internal/data/db/queries.sql.go:12-27 | The guarded UPDATE: error if and only if the call fails or the column overflows, no row if and only if the product is missing or short, otherwise one row, lowered by the amount; price and other rows stay |
| `ProductRepo.Queries.RestoreStock` | app/product/internal/data/db/queries.sql.go:40-55 | The unguarded UPDATE: error if and only if the call fails or the column overflows, no row if and only if the product is missing, otherwise one row, raised by the amount; price and other rows stay |
| `ProductRepo.ProductRepoImpl.DeductStock` | app/product/internal/data/product.go:84-101 | Sold-out if and only if the call answers and the product is missing or short; a database error is never sold-out; a refusal or an error leaves table and cached copy, a sale deletes the copy unless the delete fails, which is not an error |
| `ProductRepo.ProductRepoImpl.RestoreStock` | app/product/internal/data/product.go:103-120 | A restore of a missing product succeeds and still deletes the cached copy |
| `ProductRepo.ProductRepoImpl.FindByID` | app/product/internal/data/product.go:33-82 | One undisturbed call: who answers (first lookup, lookup in the lock, lookup after a failed lock, row), each error, and the copy left behind with 10 to 19 minutes to live |
| `UserRepo.UserRepoImpl.FindByID` | app/user/internal/data/user.go:39-84 | The same for a user and the balance, with the same lookups, errors and copy |
| `ReadThrough.FindIsRun` | app/product/internal/data/product.go:33-82 | Whatever time passes and whatever writers and other callers do between its steps, a call that leads its own flight runs as the machine does: it answers what the method answers from the same lookups and the same row, and its Set leaves the same copy with the same expiry, or none |
| `ReadThrough.AnswersMean` | app/user/internal/data/user.go:42-77 | A value is a copy live at a lookup that answered, or the row; no row, a failed query and a lock that could not be had are told apart; only a value read from the row is set, for 10 to 19 minutes |
| `Staleness.OutdatedIff` | app/product/internal/data/product.go:33-120 | In every reachable state the cached copy is outdated if and only if some later write's delete failed, or is pending, or came before a fill that had read the row before that write; and then every missed write has such a reason |
| `Staleness.BoundedStaleness` | app/product/internal/data/product.go:61-74 | No value out of thin air: every answer was the row at the instant it was read, and was served inside the call, or inside a flight the call joined while that was under way. When the call returns, the answer is no older than the time since it was served plus, from the cache, 19 minutes of entry life and the latency of the fill; every copy gets 10 to 19 minutes |
| `Staleness.OlderThanStartIff` | app/product/internal/data/product.go:36-81 | When an answer is older than the row was when the call began: each write missed was masked by the copy that answered (its delete not done between Set and lookup) or made after a flight was served that the call joined later. So an answer read from the row is older if and only if the call joined its flight after a write that the flight had missed, and a call that reads the row itself misses none |
| `FillSection.TimelyStaleness` | app/user/internal/data/user.go:39-84 | While lock holders finish in time, an answer is at most 19 minutes and 10 seconds old when the call returns, 5 seconds if it was read from the row; it was served at most 5 seconds before the call began, and not before it if the call joined no other |
| `CacheRuns.BoundAttained` | app/user/internal/data/user.go:118-127 | A run in which an answer is exactly 19 minutes and 10 seconds old when its call returns |
| `CacheRuns.FollowerGetsOldRow` | app/product/internal/data/product.go:44-45 | A run in which a call joins a flight after a write and its delete and returns the value from before, with no cached copy involved |
| `FillSection.SingleFill` | app/product/internal/data/product.go:44-75 | While lock holders finish in time, one caller of all processes at most is between lock and unlock, and between a read that got the row and any later read some action of the run is an effective delete, an expiry, a failed Set or a failed second lookup |
| `CacheRuns.FailedLookupAlone` | app/product/internal/data/product.go:55-58 | A run in which a failed second lookup is the only such action between two reads: the copy is live all the time |
| `CacheRuns.StaleWithoutFailure` | app/product/internal/data/product.go:84-101 | A stale copy needs no failure at all: a fill that reads before a write and sets after its delete leaves the old value live |
| `Staleness.AlwaysSound` | app/product/internal/data/product.go:122-143 | The invariant behind the copies and answers, over all interleavings of readers and writers |
| `Staleness.AlwaysInTime` | app/product/internal/data/product.go:44-81 | The invariant that ties every answer to the start and end of the call and of the flight it came from |
| `CacheAside.LockFreedOnlyByHolder` | app/product/internal/data/product.go:47-53 | Before it expires a lock is freed by its holder's successful unlock only |
| `CacheAside.DeletedOnce` | app/product/internal/data/product.go:96-99 | The delete after a write is called once; a failed one is not called again and leaves the copy |
| `CacheAside.JoinsUntilReturn` | app/product/internal/data/product.go:44-45 | A flight can be joined until its leader returns |
| `FillSection.AlwaysExclusive` | app/product/internal/data/product.go:46-53 | The invariant behind the single fill: whoever is in the section is the lock's holder, and while nothing disturbs the cache nobody reads the row |
| `RequestStore.Drift` | app/product/internal/data/product.go:188-198 | After k updates the expiry has moved by k half-seconds at most, provided each found half a second or more; the IDs and the key set never change |
| `RequestStore.OneTouchIff` | app/product/internal/data/product.go:194-196 | One update drifts by half a second at most if and only if half a second or more was left; otherwise the entry gains an hour |
| `RequestStore.NeverBecomesAnHour` | app/product/internal/data/product.go:194-196 | An update gives an entry without expiry an hour to live |
| `RequestStore.UpdateNeverRevives` | app/product/internal/data/product.go:189-197 | An update succeeds exactly on a live entry, never recreates an expired one, keeps the three IDs and touches no other key |
| `RequestStore.PersistsIff` | app/product/internal/data/product.go:161-168 | An entry without expiry can arise only from a creation sent with a TTL of 0 or -1 ns |
| `RequestStore.SeckillRequestRepo.CreateSeckillRequest` | app/product/internal/data/product.go:155-169 | SET NX: a cache error if and only if the call fails or the TTL is refused, a duplicate if and only if a live entry is there, neither with an effect; otherwise the entry alone is set, with its expiry |
| `RequestStore.SeckillRequestRepo.GetSeckillRequest` | app/product/internal/data/product.go:171-185 | The live entry, not-found, or a cache error |
| `RequestStore.SeckillRequestRepo.UpdateScript` | app/product/internal/data/product.go:188-198 | The script rewrites status and reason of a live entry and re-sets the rounded TTL |
| `RequestStore.SeckillRequestRepo.UpdateSeckillRequest` | app/product/internal/data/product.go:200-210 | The script with its key, an error for a failed call, not-found for a missing entry |
| `Identifiers.RenderInjective` | app/product/internal/data/product.go:34-46 | The five key families in the shared Redis database (two caches, two locks, request entries) are injective and pairwise disjoint |
| `Identifiers.RequestIdInjective` | app/product/internal/biz/product.go:177-177 | Equal request IDs come from the same buyer and the same nanosecond |
| `Identifiers.GidInjective` | app/product/internal/biz/product.go:216-216 | No two request IDs share a GID |
| `Identifiers.DecimalInjective` | app/product/internal/biz/product.go:177-177 | Decimal formatting is injective on all integers |
| `Identifiers.Formats` | app/product/internal/data/product.go:212-214 | The formats of request IDs, GIDs and the five kinds of keys, on an example each |
| `Lifecycle.WaitBudget` | app/product/internal/biz/product.go:139-142 | A job that is not degraded waited the budget at most; a degraded one waited more than the budget less a millisecond |
| `Lifecycle.WaitBudgetExactIff` | app/product/internal/biz/product.go:190-196 | The truncated stamp gives the exact verdict if and only if the real wait is not within the truncated part below the budget |
| `Statuses.StatusHistory` | app/product/internal/biz/product.go:138-163 | In every run the statuses written are WAITING, any number of PROCESSING, then at most one terminal status; the entry shows the last; later actions only append and never after a terminal one; a finished job without a terminal status lost the write of a failure |
| `Statuses.StatusTellsTruthIff` | app/product/internal/biz/product.go:147-162 | With synchronous Submit: SUCCESS means committed, SOLD_OUT and BALANCE_INSUFFICIENT mean that refusal; under any other terminal status the purchase still went through if and only if the status is DEGRADED and an earlier attempt lost its SUCCESS write |
| `Statuses.RefusedCostsNothing` | app/product/internal/biz/product.go:139-162 | While Redis answers every call, a request recorded as SOLD_OUT, BALANCE_INSUFFICIENT, DEGRADED or FAILED changed neither stock nor balance |
| `Buyers.UnknownBuyer` | app/product/internal/biz/product.go:147-159 | With synchronous Submit, a request whose buyer has no row never shows SUCCESS, SOLD_OUT or BALANCE_INSUFFICIENT, and costs nothing |
| `Buyers.DiscardedUsedAllAttempts` | app/product/internal/worker/worker.go:25-28 | In every run a job is given up only when all its attempts are used, and a queued one has some left |
| `Misleading.DegradedThoughBought` | app/product/internal/biz/product.go:139-142 | One failed SUCCESS write and a late redelivery, and a paid purchase shows DEGRADED |
| `Misleading.SuccessNeedsSync` | app/product/internal/data/saga.go:41-41 | Without synchronous Submit there is a run in which SUCCESS is shown and nothing was bought |
| `Statuses.BudgetJudged` | app/product/internal/biz/product.go:139-142 | In every run an attempt that goes ahead really waited the budget at most, a degraded one longer than the budget less a millisecond, and none starts before the stamp |
| `Statuses.FirstAttemptHeadroom` | app/product/internal/biz/product.go:186-196 | On a first attempt that is not degraded the entry has an hour less the create-to-stamp gap left, up to 2 ms of truncation, and all of it if and only if the wait makes up for the truncated parts |
| `ShortHour.HourIsShort` | app/product/internal/biz/product.go:186-196 | A run in which a punctual first attempt finds its entry short of that hour by 2 ms less 2 ns |
| `Statuses.HeldIff` | app/product/internal/data/saga.go:30-40 | A saga holds nothing exactly when it is unknown, not started or aborted |
| `Outcomes.AtMostOneEffect` | app/product/internal/worker/worker.go:25-28 | Whatever is redelivered and resubmitted, each request charges its buyer at most once and takes stock at most once, and no saga serves two requests |
| `Outcomes.CreatedOnce` | app/product/internal/biz/product.go:176-203 | However many calls draw the same request ID, at most one creates the entry and at most one job is inserted for it |
| `Successes.ExactSuccesses` | app/product/internal/biz/product.go:138-163 | The sale as buyers see it: in a settled synchronous run without Redis faults in which no entry expires, with buyers who can pay and branches retried, exactly min(N, stock / amount) of the N requests that were queued and not degraded show SUCCESS and the others SOLD_OUT |
| `Successes.ShowsAreCommits` | app/product/internal/biz/product.go:149-162 | In such a state the requests that show SUCCESS are as many as the commits, and the admitted ones as many as the sagas |
| `Successes.SuccessesFitStock` | app/product/internal/biz/product.go:162-162 | In every reachable state of a synchronous run, Redis faults included, the amounts of the requests that show SUCCESS fit the opening stock |
| `Outcomes.ExactSales` | app/product/internal/biz/product.go:213-225 | The exact sale count for protocol runs: exactly min(N, stock / amount) commits for the N sagas that handlers submitted |
| `Outcomes.SalesAreSound` | app/product/internal/biz/product.go:213-225 | Conservation and serializability for the whole protocol |
| `Outcomes.Projects` | app/product/internal/biz/product.go:213-225 | The sagas of a protocol run are a run of the coordinator model, with positive amounts |
| `Delivery.AlwaysInv` | app/product/internal/biz/product.go:138-203 | Every run keeps, for every request, the agreement of entry, job position, history, clock stamps and saga |
| `Delivery.StepKept` | app/product/internal/biz/product.go:138-203 | Every single action keeps that agreement |
| `Settling.EveryRunStops` | app/product/internal/biz/product.go:138-163 | Once no request is added, the number of further effective steps (attempts, writes, branch calls, compensations) is bounded by a measure of the state |
| `Settling.StuckIffSettled` | app/product/internal/data/saga.go:29-42 | A reachable state that only new requests and the clock can change is exactly one where every request is answered and every saga is committed or compensated |
| `Settling.StepDecreases` | app/product/internal/worker/worker.go:25-28 | Every effective step lowers the measure: attempts left, then handler position, then saga position |
| `Settling.SagaMoves` | app/user/internal/data/db/queries.sql.go:51-66 | An unsettled saga always has a branch call that moves it |
| `Usecase.ProductUsecase.HandleSeckill` | app/product/internal/biz/product.go:138-163 | Request store, saga submitted, message inserted and nil-or-error of one attempt, for every clock reading, answer and fault |
| `Usecase.AttemptShows` | app/product/internal/biz/product.go:138-163 | What an attempt leaves to be seen: nothing after a failed first write, DEGRADED when late, otherwise the saga is submitted and the coordinator's answer shown, each error as its own status; only a lost SUCCESS or a failed first write is an error |
| `Usecase.ProductUsecase.EnqueueSeckill` | app/product/internal/biz/product.go:176-203 | The three results and the new store and queue; a failed creation inserts nothing, a failed insert tries to mark FAILED and ignores how that goes |
| `Usecase.ProductUsecase.ExecuteSeckill` | app/product/internal/biz/product.go:213-232 | GID from the request ID, the answer passed on, the messaging job only after an accepted saga and its failure swallowed |
| `Usecase.ProductUsecase.constructor` | app/product/internal/biz/product.go:94-131 | A zero product or amount means 1; any other value, negative ones included, is kept |
| `Usecase.SeckillJobRepo.InsertSeckillJob` | app/product/internal/data/product.go:225-233 | Unique by request ID; an error inserts nothing |
| `Refinement.HandlerRefines` | app/product/internal/biz/product.go:138-163 | Whatever time passes and whatever others do between its steps, the run of an attempt on the machine leaves the entry, reason included, as the method leaves it, submits the saga exactly when the method does, and is finished exactly on nil, otherwise back in the queue while attempts remain |
| `Refinement.SagaCanSettle` | app/product/internal/data/saga.go:29-42 | A submitted saga can always be brought to its end by branch calls alone, so a synchronous Submit can answer, on a first attempt too |
| `Refinement.EnqueueRefines` | app/product/internal/biz/product.go:176-203 | Whatever others do between its steps, the run of an enqueue on the machine leaves the entry, the stamp and the outcome of the method, a duplicate or failed creation changing nothing; queued exactly when both calls answered |

## Left out

- Generated protobuf, gRPC, HTTP and wiring code, server setup, registry, rate limiting, tracing, logging and configuration loading.
- The internals of the coordinator, the job queue, Redis, Postgres, the distributed lock and singleflight: each is one of the contracts above.
- Which gRPC error codes make the coordinator abort a saga and which make it retry: a refused branch aborts, a database error is retried until the coordinator gives up.
- singleflight's process boundaries: a caller may join any call in flight, a superset of what the code allows.
- Lost answers in the protocol machine; `LostAnswers` has them at the level of the sagas.
- The read-side JSON encodings; in Protocol Buffers messages the deprecated groups, which the model's reader rejects.
- Messaging jobs in the protocol machine; `Usecase` models when they are inserted, and their worker only logs.
- User registration while sagas run; `UserRepo` models it around `DeductBalance`.
- `MapSeckillStatus`, the remaining service wrappers and the error constructors: one branch each.
- Attempts abandoned by a crashed worker: an attempt either reaches its next call or is still under way.
- Refinement.HandlerRefines: about the request's own entry and record; other requests' entries are whatever others make of them.
- Refinement.EnqueueRefines: under the Reuse assumption, like the machine.
- Statuses.FirstAttemptHeadroom: two milliseconds weaker than a full hour less the gap, because the Redis clock and the TTL are cut to milliseconds; its contract gives the exact condition and `ShortHour.HourIsShort` a run that misses it.
- ReadThrough.FindIsRun: for a row that exists and a call that follows no other; the machine has no missing rows and one kind of error.
- UserRepo.RegisteredIsLinearizable: for registered users only; `UserRepo.LinearizableIff` settles the rest.
