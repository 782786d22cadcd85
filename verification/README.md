# Verified model of gomall's money and quota protocols

This project models the parts of gomall that hand out limited things and move money, and proves what each protocol keeps
over every interleaving, redelivery and crash it allows for. One Lua script or one SQL transaction is one atomic step.
Money is an integer number of cents; wallet encryption is the identity. `dafny verify dfyconfig.toml` checks everything.

- **Seckill quota** (`Seckill*.dfy`): five Redis keys against the event, user and order rows. `StockDrift` and `UserDrift`
  measure how far Redis is from the documented invariant; every step either keeps them or moves them by a stated amount.
  `SeckillTasks` ties a ticket of these runs to the queued task of the same ticket in `AsyncOrder`.
- **Ledger** (`Ledger.dfy`): wallets, the append-only rows with their unique index, and movements as pairs of rows.
- **Red packet** (`RedPacket*.dfy`): the random split, the claim saga, the reconciler that races it through a compare-and-set
  on the mark, the refund, and the packet's money inside books that others write to as well.
- **Orders** (`Orders.dfy`, `Mall*.dfy`): one order with its clearing row as a state machine (`Transact`), all orders and
  groups over one ledger and one stock table (`Mall`), the invariant of every run, the totals of both escrows
  (`MallTotals`), when every transaction goes through and what it writes (`MallGates`, `MallEndings`), and the transactions
  as they run.
- **Xcash** (`Xcash*.dfy`): payment intents over the mall's own order transactions; `XcashOutcomes` decides every notice by
  its fields.
- **Inventory** (`Inventory*.dfy`), **async orders** (`AsyncOrder.dfy`), **circuit breaker**, **block scanner**
  (`Web3Scanner.dfy`), **discounts** and **promotion budget**.

State machines are functions on values: `Apply` runs one step (a step whose guard fails changes nothing), `After` a list of
steps, and results about runs quantify over every list. The code that changes things step by step is written beside them as
classes and methods with loops and rollback, each proved to be the function that the runs are made of, and, script by script
and transaction by transaction, to answer and write what the keys and columns before it call for. `RedPacketService`
and `SeckillService` go further: request and reconciler run with arbitrary steps of everyone else between any two of their own.

Where a promise of the code or its comments does not hold unconditionally, the model keeps the code and gives both the exact
condition and a run that breaks it:

- Without data loss the seckill invariant holds in every state of a run if and only if no order is built for a ticket whose
  quota was given back, and no quota is given back for an order built while its ticket is in flight (`RunIsExactIff`). The
  code does not exclude either (`GiveBackOversells`, `LateGiveBackOversells`): a producer takes a sent message for unsent, or
  an aborted task is delivered again. `CommitOversellsIff` says for which deliveries of a task.
- A seckill repair is exact if and only if no order was committed, since the database read, for a ticket that the snapshot
  did not hold (`FixIsExactIff`, broken by `StrandedCommitSurvivesRepair`); the comments call it exact whenever the version
  is unchanged. It also presumes that Redis lost nothing since the snapshot: the version counter restarts after a loss
  (`RepairAcrossLossUndersells`).
- The abort rules shrink the drift only before a repair has removed it (`AbortAfterRepairUndersells`).
- A rejected refund restores the state before the request if and only if the order is still on a request made from the same
  state as the one the decision was read on, so whenever no request came in between (`RejectRestoresIff`, broken by
  `StaleRejectUndoesDelivery`).
- Preorder repayments return what was paid if and only if buyer and seller are the same user or the configured amount is the
  one the payment was made or fixed with (`CancelIsExactIff`, `PreorderRefundIsExactIff`, broken by
  `ChangedDepositIsNotReturned`, `ChangedFinalIsNotReturned`).
- A provider reference identifies its invoice if and only if no invoice number begins with another and a colon
  (`RefsCollideIff`); two such invoices of one order can both be completed although it was cleared once
  (`CollidingInvoicesCompleteTwice`).
- Committing a reservation keeps the drift unless it is answered although the bucket lacks the items, or gets through twice
  to a bucket that has them twice (`CommitIsExactIff`, broken by `LostRepliesCommitTwice`). The repair of pending commits,
  which the comments call safe to repeat, takes the items twice if the first reply was lost (`RetryIsExactIff`, broken by
  `RepairedTwice`), and the flag that the lost reply leaves behind misleads the drift correction
  (`UntrueFlagMisleadsCorrection`).
- The drift correction is safe if one of its two equal samples read row and sums that fit its buckets
  (`OneRightSampleSuffices`), but two torn samples can agree on a wrong drift (`TwoTornSamplesAgree`).
- A committed order of an async task holds its items, and its seckill quota, if and only if no release took effect before:
  neither the producer's, after a message taken for unsent, nor that of an aborted delivery before the committing one
  (`CommittedItemsAreReservedIff`, `CommittedQuotaIsHeldIff`, broken by `RedeliveredAbortOversells`).
- A confirmed on-chain event below the watermark is missing if and only if its claim hides it; a claim comes to hide an event
  if and only if the row is not written and the claim's reply was lost or its release failed (`HidesIff`, broken by
  `HiddenEventIsSkipped` and `LoseEvent`). Without such a call no event is missed (`Rounds`).
- The counter of a promotion's budget is right in every state if and only if no charge turns the rule to a day that orders
  already hold budget of, and no release gives back to a day it was not taken from (`AlwaysRightIff`); so it is while charges
  reach the row in the order of their days. A charge that waited for the row past midnight makes it forget a whole day
  (`LateChargeForgets`).
- A promotion charged after the midnight of the order's creation is never given back (`ChargedPastMidnightIsNeverRestored`,
  seen in `ReleaseAfterMidnightKeepsCharge`).

Assumptions: a failed transaction is really over when its error is reported (it may have committed); a Redis script runs at
most once per call, except where a lost reply is a step of its own; Redis keys do not expire while they matter and no old
snapshot of Redis is restored; confirmed blocks are not reorganised; server days do not go back. Order ids are positions in
the order table.

## Model

| member | source | states |
|---|---|---|
| Seckill.GrabKeepsDrift | internal/skill/service.go:77-93 | A successful grab leaves the stock drift and every user's drift unchanged: one item and one user slot move to one in-flight ticket. |
| Seckill.ReleaseMovesDrift | internal/skill/service.go:97-109 | Releasing an unsettled ticket without its stock takes one off the stock drift; keeping the user's field adds one to that user's drift; nothing else moves. |
| Seckill.ReleaseBuiltMovesDrift | internal/skill/service.go:97-109 | Releasing a ticket that is in flight although its order exists offers one item too many and leaves its user one short. |
| Seckill.SettleKeepsDrift | internal/skill/service.go:112-117 | Taking a ticket with an order out of the in-flight set changes no drift. |
| Seckill.ReturnMovesDrift | internal/skill/service.go:122-133 | Returning a closed order is neutral, once per order; only an empty user field makes that user's drift rise by one. |
| Seckill.CommitMovesDrift | internal/skill/repo.go:88-112 | Committing an order is neutral for a Redis that still holds its ticket in flight, and otherwise leaves Redis one item over and the user one short. |
| Seckill.CloseKeepsDrift | internal/skill/repo.go:155-164 | Closing an order changes no drift: what the database gives back is what becomes closed and unreturned. |
| Seckill.CommitKeepsDbInv | internal/skill/repo.go:88-112 | Occupy keeps sold equal to the open orders and at most num, and bought equal to the user's open orders and at most the limit. |
| Seckill.CloseKeepsDbInv | internal/skill/repo.go:155-164 | Release on closing keeps the same counts; its guards against negative counters never decide. |
| SeckillRuns.StepKeepsTaskInv | internal/skill/service.go:25-33 | Every step of grabs, tasks, closures, losses, preheats and repairs keeps tickets owned once, tasks without orders, and the database counts. |
| SeckillRuns.StepKeepsReconInv | internal/skill/task.go:126-142 | While the reconciler is between its reads and its script, the drift of its snapshot has moved only by commits of tickets outside the snapshot, and an equal version means an equal Redis. |
| SeckillRuns.RunKeepsBooks | internal/skill/service.go:25-33 | All bookkeeping invariants hold in every reachable state. |
| SeckillRuns.FixFromSnapshot | internal/skill/task.go:41-55 | Writing the computed stock delta and user counts onto the snapshot leaves exactly the stranded commits as drift. |
| SeckillRuns.FixLeavesStranded | internal/skill/task.go:126-187 | When the script applies and nothing was lost since its snapshot, the drift left is exactly one item over, and one short for the user, per order committed since the database read for a ticket outside the snapshot; commits of snapshot tickets and closures do not count. |
| SeckillRuns.FixIsExactIff | internal/skill/task.go:145-187 | After an applied repair the documented invariant holds for stock and every user if and only if no such stranded order was committed. |
| SeckillRuns.StepKeepsBounds | internal/skill/service.go:77-93 | Outside repairs the stock never goes below zero and no user field above the limit. |
| SeckillExact.RunIsExact | internal/skill/service.go:31-33 | Without data loss, and while nothing oversells, both drifts are zero in every reachable state, not only at rest. |
| SeckillExact.RunIsExactIff | internal/skill/service.go:25-33 | Over every run without data loss: both drifts are zero in every state if and only if no order in it was built for a ticket out of flight and no ticket in flight with an order was given back. |
| SeckillExact.NoLossNeverRejects | internal/skill/repo.go:88-112 | In such a run an unsettled in-flight ticket implies sold < num and bought < limit for its user, so Occupy accepts it. |
| SeckillExact.BuyerIsServedIff | internal/skill/service.go:77-93 | In such a run sold plus held never passes num, nor bought plus held by a user the limit, and a buyer with a new ticket is turned away if and only if one of them is reached; otherwise the ticket is in flight and queued. |
| SeckillLimits.GiveBackOversells | internal/skill/service.go:429-438 | Why "while nothing oversells": quota given back for a task that is still delivered lets a second user grab the item, whose ticket, in flight, is then refused; no data is lost. |
| SeckillLimits.LateGiveBackOversells | internal/skill/service.go:429-438 | The same when the order is built before the producer takes its message for unsent and gives the quota back. |
| SeckillTasks.EnqueueMirrors | internal/skill/service.go:429-438 | Enqueueing a grabbed ticket, with the quota given back if the message was taken for unsent, leaves the task's record and the quota keys in step. |
| SeckillTasks.EffectMirrors | internal/order/consumer.go:164-223 | Every effect of a delivery keeps them in step, and oversells exactly if it builds the order of a quota given back or gives back the quota of an order built. |
| SeckillTasks.OthersMirror | internal/skill/service.go:25-33 | So does every step for other tickets or for none, the losses of Redis apart. |
| SeckillTasks.CommitOversellsIff | internal/order/consumer.go:210-223 | The commit of a task oversells if and only if the producer gave its quota back, or an earlier delivery was aborted and did. |
| SeckillTasks.RedeliveredCanCommit | internal/order/consumer.go:101-131 | A task delivered again can commit while the counters have room, wherever its quota is by then. |
| SeckillOvercount.PreheatStockDrift | internal/skill/service.go:138-153 | Re-heating from an earlier view leaves the stock over by exactly the orders committed since that view. |
| SeckillOvercount.PreheatUserDrift | internal/skill/service.go:138-153 | Re-heating from an earlier view leaves each user short by exactly that user's orders since the view. |
| SeckillOvercount.RunIsOver | internal/skill/service.go:534-545 | Before any repair, data loss allowed, the stock drift covers all outstanding sold-out rejections and each user's shortfall covers his outstanding limit rejections. |
| SeckillOvercount.SoldOutAbortShrinks | internal/skill/service.go:534-545 | A sold-out abort takes exactly one off a stock drift that is still positive, however many aborts are outstanding. |
| SeckillOvercount.LimitAbortShrinks | internal/skill/service.go:534-545 | A limit abort adds exactly one to a drift of that user that is still negative. |
| SeckillLimits.AbortAfterRepairUndersells | internal/skill/service.go:534-545 | Why "before any repair": a reachable state in which a sold-out abort after a repair takes an item that is not too many. |
| SeckillLimits.RepairAcrossLossUndersells | internal/skill/task.go:41-55 | Why "nothing lost since the snapshot": a reachable state in which the version comes back after a loss and the repair undersells. |
| SeckillLimits.StrandedCommitSurvivesRepair | internal/skill/task.go:126-187 | A reachable state in which a repair at its version, with nothing lost since its snapshot, leaves one item over: a task that outlived an earlier loss commits after the database read. |
| SeckillScripts.QuotaKeys.GrabScript | internal/skill/service.go:77-93 | Sells exactly if the stock key exists with stock and the user is below the limit; answers -3 without the key, -2 at the limit, -1 without stock; a refusal changes nothing, a sale takes one item and gives the user one more and the ticket. It is the grab of the runs. |
| SeckillScripts.QuotaKeys.ReleaseScript | internal/skill/service.go:97-109 | Once per ticket: the ticket leaves the in-flight set, with one item and one user slot back as asked. It is the release of the runs. |
| SeckillScripts.QuotaKeys.SettleScript | internal/skill/service.go:112-117 | Only the ticket leaves the in-flight set. It is the settlement of the runs. |
| SeckillScripts.QuotaKeys.ReturnScript | internal/skill/service.go:122-133 | Once per order: one item and one user slot come back. It is the return of the runs. |
| SeckillScripts.QuotaKeys.PreheatScript | internal/skill/service.go:138-153 | Missing keys are rebuilt from the database view: unsold stock, every user's count, all closed orders as returned; existing keys are left alone. |
| SeckillScripts.QuotaKeys.FixScript | internal/skill/task.go:41-55 | At the snapshot's version and with the stock key present the loop adds the delta and sets the given users; otherwise nothing changes. |
| SeckillScripts.EventRows.Occupy | internal/skill/repo.go:88-112 | The conditional updates accept exactly within num and limit and count the order. |
| SeckillScripts.EventRows.CommitTx | internal/skill/service.go:512-522 | Goes through exactly within num and limit, writing order, sold and bought together; a refusal names its cause and changes nothing. |
| SeckillScripts.EventRows.CloseTx | internal/skill/repo.go:155-164 | Closes an open order once and gives its quota back in both counters; anything else changes nothing. |
| SeckillScripts.CountHeld | internal/skill/task.go:147-163 | The counting loops give the unsettled and unreturned totals, in all and per user. |
| SeckillScripts.FixDrift | internal/skill/task.go:146-187 | The computed arguments bring stock and every user to the wanted values; nothing is sent exactly when nothing is wrong. |
| SeckillScripts.ReconcilePass | internal/skill/task.go:97-124 | The walk over tickets and closed orders as it is written, on a Redis nobody else writes meanwhile, from any drift: the stock drift stays, every field falls by what its user no longer holds but not below zero, an exact Redis stays exact, every closed order is returned, and only tickets still to be processed stay in flight. |
| SeckillService.Reconciler.Walk | internal/skill/task.go:97-124 | The same walk with any steps of everyone else between its calls is a run of the state machine: without data loss every settled, failed or abandoned ticket of the snapshot is out of flight and every closed order of it returned, and no drift is left if nothing has oversold. |
| Ledger.MoveKeepsBooks | internal/money/ledger_repo.go:24-63 | Any movement between any two accounts, the same wallet on both sides included, keeps debits equal to credits, both sides paired, every wallet at opening plus credits minus debits and not negative, and every row logged with the balance it left. |
| Ledger.MoveHas | internal/money/ledger_model.go:66-77 | A movement takes both directions of its reference and business type in the unique index and no other slot. |
| Ledger.MoveTotals | internal/money/ledger_repo.go:24-63 | A movement adds its amount once to the debits and once to the credits. |
| Ledger.MoveGoesThroughIff | internal/money/ledger_repo.go:24-63 | A movement goes through if and only if its two index slots are free, its wallets exist and the debited one can pay; the amount leaves one wallet and reaches the other, and no other wallet changes. |
| Ledger.NetMove | internal/money/ledger_repo.go:24-63 | A movement moves what a subject's rows have put into an account by exactly its amount, if it belongs to the subject. |
| Ledger.Desk.DebitUser | internal/preorder/service.go:457-512 | Goes through exactly if the buyer can pay and the slots are free; the amount leaves buyer for seller, all or nothing, also when they are the same user. |
| Ledger.Desk.RefundUser | internal/preorder/service.go:519-581 | The same from seller back to buyer; with buyer and seller the same the stale copy is replaced, so no money appears. |
| Ledger.Desk.CollectToEscrow | internal/groupbuy/settle.go:48-78 | A joining member's payment leaves his wallet for the group escrow exactly if he can pay it. |
| Ledger.Desk.RefundFromEscrow | internal/groupbuy/settle.go:96-132 | A member's refund reaches his wallet, and is skipped when its credit row exists. |
| Ledger.Desk.AdjustWallet | internal/redpacket/settle.go:27-73 | A signed change of one wallet with its row, skipped when the row exists and refused on overdraft. |
| Ledger.Desk.AdjustClearing | internal/redpacket/settle.go:77-97 | The escrow row of a red packet movement, skipped when it exists. |
| Ledger.Desk.SettlePacket | internal/redpacket/settle.go:99-135 | The two halves are one movement, or nothing when the wallet row exists already; it is refused exactly for an amount of zero, a missing wallet, a short one, or a half-written pair. |
| RedPacketSplit.ClampsAreDead | repository/cache/redpacket.go:138-156 | While each later share can still get a cent, none of the clamps changes the draw: it is twice the average less one, at least one, and leaves a cent per later share. |
| RedPacketSplit.DrawShare | repository/cache/redpacket.go:138-158 | One round draws at least one cent, at most twice the average less one, and leaves a cent per later share; the random bound is always at least one. |
| RedPacketSplit.SplitRedPacket | repository/cache/redpacket.go:127-167 | Fails exactly on count <= 0 or total < count; otherwise terminates with count shares, each at least one cent, summing to total. |
| RedPacketSplit.Shuffle | repository/cache/redpacket.go:163-165 | Shuffling permutes the shares. |
| RedPacketRuns.GrabMovesShare | repository/cache/redpacket.go:55-66 | A claim moves one share from the pool to one mark. |
| RedPacketRuns.UndoMovesShare | repository/cache/redpacket.go:92-99 | A rollback moves the share of its own mark back to the pool, or nothing if the mark is gone or under repair. |
| RedPacketRuns.LockMovesNothing | repository/cache/redpacket.go:108-115 | Locking a mark for repair moves no share. |
| RedPacketRuns.RunClaimMovesShare | internal/redpacket/service.go:254-289 | The claim transaction, committed, refused or committed with an error reply, turns one unrecorded mark into one claim row or nothing. |
| RedPacketRuns.RunRepairMovesShare | internal/redpacket/task.go:187-209 | A repair turns its locked mark into a claim row or nothing, also when it is tried again. |
| RedPacketRuns.StepKeepsSaga | internal/redpacket/service.go:168-244 | Every step keeps: sessions and repairs hold a mark of their amount, claim rows are one per user and carry the mark's amount, claims plus remaining equal count, and remaining is zero exactly when finished. |
| RedPacketRuns.StepMovesShares | internal/redpacket/service.go:168-244 | Every step keeps, for each amount, the number of shares unsent, pooled, marked without a row, recorded and dropped. |
| RedPacketMoney.ClaimKeepsMoney | internal/redpacket/service.go:252-289 | A claim keeps the ledger balanced and the packet's rows exact. |
| RedPacketMoney.RefundKeepsMoney | internal/redpacket/task.go:59-105 | A refund keeps the ledger balanced and the packet's rows exact. |
| RedPacketMoney.ReplayChangesNothing | internal/redpacket/consumer.go:26-77 | A replayed created, claimed or expired event finds its rows and changes nothing. |
| RedPacketMoney.ElsewhereKeepsMoney | internal/money/ledger_repo.go:24-63 | Movements of other packets and other parts of the program leave the packet's rows alone. |
| RedPacketMoney.StepKeepsMoney | internal/redpacket/settle.go:99-135 | Every step keeps the packet's rows exact: escrow, claimers and sender. |
| RedPacketTheorems.CreationStarts | internal/redpacket/service.go:101-131 | A created packet with a split satisfies the whole invariant, the sender debited and the escrow credited. |
| RedPacketTheorems.CreationGoesThroughIff | internal/redpacket/service.go:63-135 | A packet is created if and only if its sender exists and can pay the total, which leaves his wallet; it starts active, unclaimed, with all its shares. |
| RedPacketTheorems.RunKeepsPacket | internal/redpacket/service.go:168-289 | Over every interleaving of prepare, grab, claim, lost replies, crash, rollback, repair, refund, pool loss and replays the shares and the money are conserved. |
| RedPacketTheorems.EscrowIsExact | internal/redpacket/task.go:59-105 | In every run of a created packet: balanced ledger, escrow equal to total less claims less refund, never negative, zero exactly when the packet is finished or refunded, and claims plus remaining equal the number of shares. |
| RedPacketTheorems.WalletIsExact | internal/redpacket/settle.go:99-135 | In every run the packet has given each user exactly the claimed share and has charged the sender exactly what was not refunded. |
| RedPacketTheorems.ClaimGoesThroughIff | internal/redpacket/service.go:254-289 | In every run a claim goes through if and only if the packet is active, the user exists and has no claim; it pays him the amount, takes one share and ends the packet with the last. |
| RedPacketTheorems.ActivePacketIsRefunded | internal/redpacket/task.go:59-105 | In every run the refund of an active packet goes through, pays the sender total less claims and ends it; of an ended packet it changes nothing. |
| RedPacketTheorems.RunExtends | internal/redpacket/repo.go:45-62 | Finished and refunded exclude each other for good; an ended packet takes no more claims and no claim row disappears. |
| RedPacketTheorems.PutBackOrRepaired | repository/cache/redpacket.go:82-115 | A rollback that puts a share back found no claim row and no repair and leaves no mark; a share under repair or recorded is never put back. |
| RedPacketTheorems.IntactSharesAreTheSplit | repository/cache/redpacket.go:16-22 | While the packet is active and its pool was not lost, unsent, pooled, marked and recorded shares are exactly the split. |
| RedPacketTheorems.IntactPacketIsClaimable | internal/redpacket/task.go:120-124 | Such a packet always has a share to claim or an orphan mark to repair, so it cannot hang half-claimed. |
| RedPacketScripts.PacketKeys.PrepareScript | repository/cache/redpacket.go:36-45 | The push loop appends every share in order. |
| RedPacketScripts.PacketKeys.ClaimScript | repository/cache/redpacket.go:55-66 | Answers -2 exactly if the user has a mark, else -1 exactly if the pool is empty, else takes the first share and marks it. |
| RedPacketScripts.PacketKeys.RollbackScript | repository/cache/redpacket.go:92-99 | Puts the share back in front and drops the mark, unless there is none or a repair has taken it over. |
| RedPacketScripts.PacketKeys.LockScript | repository/cache/redpacket.go:108-115 | Marks a repair exactly if the mark is still the one that was read. |
| RedPacketScripts.PacketKeys.ReleaseScript | repository/cache/redpacket.go:72-80 | The pop loop empties the pool and returns the sum of what was in it. |
| RedPacketScripts.PacketRows.DecrRemaining | internal/redpacket/repo.go:45-55 | The conditional decrement hits exactly an active packet with shares left. |
| RedPacketScripts.PacketRows.RunClaimTx | internal/redpacket/service.go:252-289 | Each refusal has its cause, in the order of the statements: claimed before, no share or not active, wallet; otherwise row, count, status and money are written together. |
| RedPacketScripts.PacketRows.RunRefundTx | internal/redpacket/task.go:59-105 | An active packet is refunded with total less claims, and ended; another one is left alone. |
| RedPacketService.Service.Claim | internal/redpacket/service.go:168-244 | The request under arbitrary interference is a run of the state machine. A success is true: the claim row has the user's share. A refusal has its cause: not active when read, and still not; overdue; a mark, or an empty pool, when the script ran. With a share, an answered transaction that packet and ledger take succeeds with it; undisturbed, a lost reply too if the claim can be read, and a transaction not done puts the share back, or keeps the mark if the claim cannot be read. |
| RedPacketService.Service.Recover | internal/redpacket/service.go:213-237 | Success only with a claim row, and exactly with one while undisturbed; otherwise the share goes back unless the packet has ended or the claim cannot be read. |
| RedPacketService.Service.Reconcile | internal/redpacket/task.go:153-230 | The reconciler under arbitrary interference is a run of the state machine; each repair it reports is a new claim row, and it refunds early only into an ended packet, with nothing pending; undisturbed and answered, it repairs every mark that is due, and refunds exactly for an empty pool. |
| RedPacketService.Service.RepairMarks | internal/redpacket/task.go:177-213 | Undisturbed and answered, every mark older than the grace time has its claim row afterwards unless the packet has ended; a younger orphan stays as it is and keeps the round pending. |
| RedPacketService.Service.Repair | internal/redpacket/task.go:172-209 | One orphan is locked before it is recorded; an error of the lock script, run or not, leaves it pending; a reported repair is a new row. |
| Orders.PaymentIsSound | internal/payment/settle.go:49-121 | A payment clears the payable amount and moves WaitPay to WaitShip, taking the order's items from the stock. |
| Orders.PaymentMatches | internal/clearing/service.go:44-97 | Its one movement is payer to merchant escrow over the payable amount, under a business type not used before. |
| Orders.SettlementIsSound | internal/clearing/service.go:274-356 | Settling changes only the clearing row, from cleared to settled, of a completed order. |
| Orders.SettlementMatches | internal/clearing/service.go:311-342 | Its one movement is escrow to seller over the net amount. |
| Orders.RefundIsSound | internal/refund/service.go:256-426 | Settling a refund marks the clearing row, restocks an unshipped order once, and leaves the type. |
| Orders.RefundMatches | internal/refund/service.go:342-402 | Its one movement goes to the buyer, from escrow if still cleared and else from the seller. |
| Orders.StatusEventIsSound | internal/order/repo.go:370-518 | Closing, shipping, receiving, asking, approving, rejecting and confirming a return move only along the transition table and move no money. |
| Orders.PreorderEventIsSound | internal/preorder/repo.go:76-127 | Final payment and cancellation move a preorder along its stages and the table. |
| Orders.PreorderEventMatches | internal/preorder/service.go:158-327 | Their one movement is between buyer and seller, skipped for amounts not above zero. |
| Orders.GroupEventIsSound | internal/groupbuy/service.go:414-444 | Selling or closing a member's order moves it along the table once. |
| Orders.GroupEventMatches | internal/groupbuy/settle.go:80-132 | Their one movement is out of the group escrow, into the merchant escrow or back to the member. |
| Orders.TransactionIsSound | internal/order/state.go:10-50 | Every committed transaction on an order keeps its invariants and terms, moves only along the transition table, and moves stock and money by what its rows record. |
| MallBooks.ActKeepsCore | internal/clearing/service.go:265-356 | Any transaction on any order keeps every order's ledger rows and balances exact, the ledger balanced and the stock conserved. |
| MallBooks.ActKeepsStock | internal/product/repo.go:117-143 | Stock plus the items of paid, not restocked orders stays what merchants supplied. |
| MallBooks.PlacedKeepsCore | internal/preorder/service.go:96-139 | Placing an order, with or without a first payment, keeps the same. |
| MallRuns.LoopKeepsCore | internal/groupbuy/service.go:410-444 | The member loop takes every member's order to its target and touches no other order. |
| MallRuns.EndingKeepsMall | internal/groupbuy/service.go:375-478 | Success and dissolution keep all groups: their counts, members, phases and separateness. |
| MallRuns.JoinKeepsGroups | internal/groupbuy/repo.go:48-72 | Joining keeps one order and one membership per user and the count at most the target. |
| MallTheorems.ReplayedExpiryIsNoOp | internal/groupbuy/settle.go:143-187 | In every reachable state the consumer of groupbuy.expired changes nothing. |
| MallRuns.StepKeepsMall | internal/groupbuy/service.go:57-63 | Every step keeps the whole invariant of orders, groups, ledger and stock. |
| MallRuns.RunKeepsMall | internal/clearing/service.go:265-356 | So does every run from an opened mall, whatever is replayed, reordered or refused. |
| MallTheorems.LedgerIsSound | internal/money/ledger_repo.go:24-63 | In every reachable state debits equal credits, every wallet is its opening balance plus its credits minus its debits and not negative, and nothing is posted twice under one reference, direction and business type, or on one side only. |
| MallTheorems.SettlementsAreGuarded | internal/refund/service.go:313-323 | A refund row is written only by settling an approved refund, and the seller's row only by settling a completed order that is still cleared. |
| MallTheorems.OrderMoneyIsExact | internal/clearing/service.go:265-356 | In every reachable state: escrow holds the net amount iff cleared, a seller other than the buyer has it iff settled, who buys from himself has back what left the escrow, the group escrow holds the price iff the order waits for its group, the settlement row exists iff ever settled, at most one refund row. |
| MallTheorems.PaidOrdersAreCleared | internal/payment/settle.go:49-121 | In every reachable state every paid non-preorder order has a clearing row, and every clearing row is over the final amount if a promotion or a coupon was used and over price times number if neither was, without a fee, for buyer and seller of its order. |
| MallTheorems.GroupMoneyIsExact | internal/groupbuy/settle.go:19-28 | Each group counts its members, at most its target, and the group escrow holds price times members while open and nothing afterwards. |
| MallTotals.EscrowsAreExact | internal/clearing/service.go:265-356 | In every reachable state the merchant escrow is the sum of the net amounts of all cleared rows, and the group escrow the sum of price times members over the open groups; nothing else is in either. |
| MallTotals.RunKeepsTotals | internal/groupbuy/settle.go:19-28 | Both totals are kept over every run, whatever wallets and red packets move in between. |
| MallTheorems.OpenGroupWaits | internal/groupbuy/service.go:410-444 | While a group is open every member's order waits for it. |
| MallTheorems.EndedGroupsStay | internal/groupbuy/repo.go:74-98 | An ended group keeps its status: success and dissolution exclude each other. |
| MallTheorems.StepFollowsTable | internal/order/state.go:21-28 | Every type any step writes to any order is an edge of the transition table. |
| MallTheorems.RefundedOrderLeavesNothing | internal/refund/service.go:256-262 | In every reachable state a refunded clearing row means its order left nothing with the escrow or a seller other than the buyer, and with the buyer exactly what came in from outside. |
| MallTheorems.StockIsConserved | internal/order/repo.go:505-518 | In every reachable state stock is supply less the items of paid, not restocked orders, and not negative. |
| MallTheorems.RefundGoesThroughIff | internal/refund/service.go:370-390 | The refund of an approved order goes through if and only if the money is still in escrow, or the seller is the buyer or can pay; it reaches the buyer from there, and the items of an unshipped order go back into the stock. |
| MallTheorems.CompletedOrderSettles | internal/refund/service.go:533-564 | A completed, still cleared order is settled by the next event or compensation round, the seller's wallet rising by the net amount. |
| MallGates.PaymentGoesThroughIff | internal/payment/service.go:51-116 | In every reachable state a balance payment goes through if and only if the order waits for payment with its parties and number set, the buyer has what it costs and the product row covers it; that price leaves his wallet and is cleared, the items leave the stock. |
| MallGates.OutsidePaymentGoesThroughIff | internal/payment/settle.go:49-121 | A payment from outside goes through under the same conditions but for the balance, and leaves the wallets alone. |
| MallGates.BilledOrderIsPaidAtBill | internal/order/model.go:146-155 | An order placed at a bill of the discounts is paid and cleared with subtotal less promotion less coupon, whatever budgets were used up. |
| MallGates.MerchantActsIff | internal/order/repo.go:389-486 | Shipping, approving and rejecting are open to the order's own merchant or the platform, each from its one state and with its one effect; to nobody else. |
| MallGates.ReturnIsConfirmedIff | internal/order/repo.go:505-518 | A return is confirmed by the same, once, for a refunded order that was shipped; its items go back into the stock. |
| MallGates.BuyerActsIff | internal/order/repo.go:422-453 | A refund is asked for exactly while paid, after completion only in the after-sales time, three times at most; receiving needs a shipped order. |
| MallGates.TimeoutCloses | internal/order/repo.go:372-387 | The timeout closes exactly the unpaid ordinary order. |
| MallGates.FinalPaymentGoesThroughIff | internal/preorder/service.go:195-231 | Inside its window the final payment goes through if and only if the deposit is paid, the buyer has the amount and the product row covers the order. |
| MallGates.CancellationGoesThroughIff | internal/preorder/service.go:286-310 | Inside its window the cancellation goes through if and only if the deposit is paid and the seller has the amount, which returns to the buyer. |
| MallGates.PreorderRefundGoesThroughIff | internal/refund/service.go:325-402 | The refund of an approved preorder goes through if and only if the seller can pay its price back and, if unshipped, its product row is there. |
| MallGates.DepositGoesThroughIff | internal/preorder/service.go:56-156 | A deposit order is placed if and only if the buyer has the deposit; its price is fixed at deposit plus final amount. |
| MallGates.DepositIsForfeited | internal/preorder/service.go:352-416 | An unpaid final payment closes the order; no money moves. |
| MallGates.GroupOpensIff | internal/groupbuy/service.go:94-205 | A group opens for two to a hundred members at a positive price that its leader can pay, and he is its first member. |
| MallGates.UserJoinsIff | internal/groupbuy/service.go:209-375 | A user joins if and only if the group is open, not full and not expired, he is not in it, and he can pay. |
| MallEndings.GroupSucceedsIff | internal/groupbuy/service.go:381-465 | In every reachable state a group's success goes through if and only if it is open and full, its orders' parties are set, and the stock covers all members; one item each leaves the stock, no wallet changes. |
| MallEndings.GroupDissolves | internal/groupbuy/service.go:518-594 | An open group can always be ended without success, and only an open one; every member gets the price back, nobody else anything. |
| MallTheorems.RestocksAtMostOnce | internal/order/repo.go:505-518 | In every reachable state, a transaction raises the stock only of a refunded, not yet restocked order, by its items, and sets the mark that stays. |
| MallRefunds.RunFollows | internal/refund/service.go:80-118 | Over any run an order keeps its terms and payments, every new refund request is counted, and a preorder paid in full stays so. |
| MallRefunds.CancelIsExactIff | internal/preorder/service.go:248-327 | In every reachable state, cancelling in the deposit window leaves the buyer's rows for the order at zero if and only if he is the seller or the configured deposit is still the one paid. |
| MallRefunds.ChangedDepositIsNotReturned | internal/preorder/service.go:248-327 | From any reachable state: a deposit paid, the configured deposit changed, and the cancellation leaves the buyer with the difference. |
| MallRefunds.PreorderRefundIsExactIff | internal/refund/service.go:325-336 | For a final payment of any amount in any reachable state and a refund any time after: the buyer's rows are at zero if and only if he is the seller or that amount was the rest of the sum fixed at the deposit. |
| MallRefunds.ChangedFinalIsNotReturned | internal/preorder/service.go:158-231 | From any reachable state: the final payment changed after the deposit, and the refund leaves the buyer with the difference. |
| MallRefunds.RejectRestoresIff | internal/refund/service.go:198-248 | A decision read in any reachable state and committed after any steps restores the state before the request if and only if the order is then on a request made from the same state; always if no request was counted in between. |
| MallRefunds.StaleRejectUndoesDelivery | internal/refund/service.go:207-230 | It need not be: a decision read before a delivery and run after a second request takes a completed order back to waiting for shipment. |
| MallDatabase.Database.SettleCompletedOrder | internal/clearing/service.go:274-356 | The transaction, statement by statement with rollback, is the settlement of the runs. |
| MallDatabase.Database.SettleRefundedOrder | internal/refund/service.go:262-427 | The transaction, with its idempotency checks and rollback, is the refund of the runs. |
| MallDatabase.Database.PayDown | internal/payment/service.go:51-116 | The balance payment is the payment of the runs, all or nothing; the price by the order's columns leaves the buyer's wallet. |
| MallDatabase.Database.LogCleared | internal/clearing/service.go:82-96 | The two ledger rows of a clearing are written together or refused by the unique index. |
| MallDatabase.Database.PayFinalAmount | internal/preorder/service.go:195-231 | The final payment is that of the runs, all or nothing. |
| MallDatabase.Database.CancelInDepositWindow | internal/preorder/service.go:286-310 | The cancellation is that of the runs, all or nothing. |
| MallDatabase.Database.SellMember | internal/groupbuy/service.go:415-444 | One round of the success loop: stock, clearing, type. |
| MallDatabase.Database.CloseMember | internal/groupbuy/service.go:551-576 | One round of the dissolving loop: type and refund, skipped for an order that left the group. |
| MallDatabase.Database.MarkGroupSuccess | internal/groupbuy/service.go:395-465 | The success transaction is that of the runs: all members or none. |
| MallDatabase.Database.DissolveGroup | internal/groupbuy/service.go:536-594 | The dissolution is that of the runs: all members or none. |
| Xcash.StricterIsTheMaximum | internal/payment/service_xcash.go:310-348 | The merged risk rank is the maximum of both sources; one high source makes the result high, it is ready only if no source is worse, and the score comes with the level. |
| Xcash.OneInvoicePerRef | internal/payment/service_xcash.go:136-136 | Among invoice numbers none of which begins with another and a colon, a provider reference belongs to one invoice. |
| Xcash.RefsCollideIff | internal/payment/service_xcash.go:136-136 | Payments of two invoices can be given the same reference if and only if the numbers are equal or one begins with the other and a colon. |
| XcashRuns.OpenIntentNeverMatches | internal/payment/service_xcash.go:214-226 | For an intent that is not yet completed the matched arm is never reached: it would complete an intent without clearing anything. |
| XcashRuns.SettleKeepsInv | internal/payment/service_xcash.go:214-248 | Clearing, or setting a second payment aside, keeps the invariant. |
| XcashRuns.ProcessKeepsInv | internal/payment/service_xcash.go:135-249 | Every branch of the confirmed-event transaction keeps: a completed intent's order is cleared under its invoice, an Xcash clearing row belongs to such an intent, an anomaly has its row. |
| XcashRuns.GiveUpKeepsInv | internal/payment/service_xcash.go:250-269 | So does the second transaction that quarantines what cannot be fulfilled, at any later time. |
| XcashRuns.MallKeepsClearings | internal/clearing/service.go:44-97 | No other transaction changes the channel or reference of a clearing row or adds an Xcash one. |
| XcashRuns.RunKeepsInv | internal/payment/service_xcash.go:135-290 | The invariant holds over every sequence of webhook, reconcile, quarantine, checkout and other mall steps while no invoice number of an order begins with another of it and a colon. |
| XcashRuns.AtMostOneCompleted | internal/payment/service_xcash.go:228-243 | Under that condition an order has at most one completed intent. |
| XcashRuns.CollidingInvoicesCompleteTwice | internal/payment/service_xcash.go:214-226 | Without it: of two open intents of one order whose payments got one reference, the first clears the order and the second is taken for a repetition of the first and completed too. |
| XcashRuns.StepMovesOnward | internal/payment/service_xcash.go:170-206 | Intents move only along waiting and expired, then risk_pending, then completed or anomaly, and completed to anomaly; anomaly is absorbing. |
| XcashRuns.ClearsIff | internal/payment/service_xcash.go:163-243 | A notice clears its order if and only if its intent is open, number, amount, currency, method and risk are acceptable, the order waits for payment and its transaction goes through. |
| XcashOutcomes.PaymentIsSettledOrReported | internal/payment/service_xcash.go:133-290 | Under that condition a processed payment is either cleared under its reference, or recorded as an anomaly, or belongs to an intent quarantined before, or nothing failed and the risk level the policy asks for is still to come. |
| XcashOutcomes.FailedCheckQuarantines | internal/payment/service_xcash.go:160-204 | A payment that fails a check quarantines its open intent, with an anomaly row under its reference for its order whose reason is the first failing check: merchant number, forced reason, money, method, risk. |
| XcashOutcomes.RiskPendingIff | internal/payment/service_xcash.go:205-207 | An open intent waits for the risk result if and only if nothing fails and the policy asks for a level that is not there. |
| XcashOutcomes.AcceptablePaymentDecides | internal/payment/service_xcash.go:209-243 | An acceptable payment of a waiting order clears it and completes the intent, or changes nothing; of an order that moved on it quarantines the intent as a second payment. |
| XcashOutcomes.FailureIsFinalIff | internal/payment/service_xcash.go:250-255 | A failed settlement is given up if and only if its clearing rows could be written, so that stock, state or buyer failed; otherwise it is tried again. |
| XcashOutcomes.GivingUpQuarantines | internal/payment/service_xcash.go:256-268 | Giving up quarantines the intent as unfulfillable unless it was finished meanwhile. |
| XcashOutcomes.FinishedIntentDecides | internal/payment/service_xcash.go:165-200 | A quarantined intent stays; a completed one becomes an anomaly on a failed check, takes a replay of its payment silently, and reports a second payment. |
| XcashOutcomes.ReceiptDecides | internal/payment/service_xcash.go:143-160 | A receipt that is there stops the notice; a new one is kept exactly if the transaction commits; an unknown invoice fails. |
| XcashOutcomes.CheckoutOpensIff | internal/payment/service_xcash.go:489-515 | An intent is opened exactly for an existing order and a positive amount, if none has its order and attempt, its merchant number or its invoice number. |
| XcashOutcomes.PollingDecides | internal/payment/service_xcash.go:581-592 | Polling only turns an intent between waiting and expired. |
| XcashService.Service.SettleOpen | internal/payment/service_xcash.go:214-248 | The last branches of the transaction are those of the runs. |
| XcashService.Service.ProcessConfirmedEvent | internal/payment/service_xcash.go:135-249 | The transaction with its receipt and rollback is that of the runs, whose every ending `XcashOutcomes` states by the fields. |
| XcashService.Service.QuarantineUnfulfillable | internal/payment/service_xcash.go:250-269 | The second transaction is that of the runs. |
| Inventory.StepMovesBalance | repository/cache/inventory.go:32-90 | Reserve, release, payment, commit, leak reclaim and stock edits leave available + reserved - num - pending where it was; a late commit, a repeated commit, a lost adjustment and a correction move it by exactly their items. |
| Inventory.RunMovesBalance | service/inventory/syncer.go:54-68 | Over every run with the bucket in place the balance moves by exactly those. |
| Inventory.RunNeverOversells | repository/cache/inventory.go:32-69 | Over any reservations, releases, payments and commits of positive numbers neither bucket nor the product row goes below zero. |
| Inventory.OrdinaryStepKeepsRange | repository/cache/inventory.go:35-47 | Per step: what becomes reserved was on offer, all of it or nothing. |
| Inventory.EditArrives | internal/product/service.go:345-372 | A stock edit moves row and bucket by the same number, and leaves no drift once it has arrived. |
| Inventory.CorrectionIsSafe | service/inventory/syncer.go:130-158 | With the true pending inside the interval the correction has the sign of the drift and does not overshoot; it is zero exactly when the interval does not tell the sign, and exact when the interval is a point. |
| Inventory.CorrectionClamps | service/inventory/syncer.go:130-158 | Whatever row and sums were read, the correction clamps the drift; it is harmless at every drift if and only if row and pending together, as they are at the write, lie within what was read. |
| Inventory.SumsBoundPending | internal/order/repo.go:101-122 | While flags are true and owed reservations flagged or recent, the two database sums enclose the true pending. |
| Inventory.ReconcileIsSafe | service/inventory/syncer.go:120-128 | So the correction with row and sums read in one state never makes the drift worse. |
| Inventory.ReadsStayTrue | service/inventory/syncer.go:161-193 | Between reads and write payments keep row and pending together, and only a commit takes its items out of them. |
| Inventory.OneRightSampleSuffices | service/inventory/syncer.go:161-193 | If the first of two equal samples was right and the drift is still there, the correction by the second is safe, however torn that was. |
| Inventory.TwoTornSamplesAgree | service/inventory/syncer.go:161-193 | Two repairs of equal size, each between the sums and the buckets of a sample, make both samples agree on a drift that is not there, and the correction makes the stock short. |
| Inventory.InitStartsShortByPending | repository/cache/inventory.go:71-82 | A bucket built from the database starts short by exactly the paid items still counted as reserved. |
| InventoryTasks.Warehouse.ReserveScript | repository/cache/inventory.go:35-47 | Answers 1 exactly if the bucket exists with enough items, -1 if it has less, -2 if it is missing; a refusal changes nothing, a reservation moves the items from available to reserved. |
| InventoryTasks.Warehouse.ReleaseScript | repository/cache/inventory.go:61-69 | Answers 1 exactly if so many are reserved, and then moves them back; otherwise nothing changes. |
| InventoryTasks.Warehouse.ReserveStock | internal/product/stock.go:16-27 | Succeeds if and only if the bucket, or the product row less what is reserved when it is missing, covers the items; a missing bucket is built either way. |
| InventoryCommits.CommitIsExactIff | internal/order/task.go:60-92 | The drift falls if and only if an attempt is answered by a bucket that lacks the items, and rises if and only if two attempts get through to a bucket that holds them twice; by how much is stated too. |
| InventoryCommits.LostRepliesCommitTwice | internal/order/task.go:72-85 | Two lost replies, or a lost one and an answer, take the items twice and raise the drift by them. |
| InventoryCommits.RetryIsExactIff | internal/order/task.go:138-162 | A repair raises the drift exactly if the script runs for a reservation already gone on a bucket with room, lowers it exactly if it is answered short for one still owed, and leaves it otherwise. |
| InventoryCommits.RepairedTwice | internal/order/task.go:138-162 | Two rounds, the first with its reply lost, take the items twice. |
| InventoryCommits.CommitKeepsFlagsIff | internal/order/task.go:88-91 | The pending flag of a fresh payment stays true unless no attempt was answered and one of them took the items. |
| InventoryCommits.RetryKeepsFlagsIff | internal/order/task.go:146-160 | When a repair keeps the flags true, for every ending of its three calls. |
| InventoryCommits.UntrueFlagMisleadsCorrection | service/inventory/syncer.go:130-158 | After a lost reply the correction with the two database sums makes a right stock short by the order's items. |
| InventoryTasks.Warehouse.CommitStockReservation | internal/order/task.go:60-92 | The retry loop with the flag is that function, for every ending of its calls. |
| InventoryTasks.Warehouse.RetryPendingCommit | internal/order/task.go:138-162 | One repair is that function, for every ending of its calls, also for a reservation already gone. |
| InventoryTasks.SampleDrifts | service/inventory/syncer.go:69-104 | The paged loop visits every product once and collects exactly the non-zero drifts. |
| InventoryTasks.SampledLikeTheCorrection | service/inventory/syncer.go:130-158 | A sampled drift is the one the correction computes from the same bucket, row and sums, and zero without a bucket. |
| AsyncOrder.PlanIsSafe | internal/order/consumer.go:70-163 | A delivery makes at most one order, none if there is one, and never releases items or quota when it finds or makes an order. |
| AsyncOrder.AtMostOneOrder | internal/order/consumer.go:73-75 | Any number of deliveries with crashes anywhere leaves at most one order per ticket. |
| AsyncOrder.CommittedOrderIsLeftAlone | internal/order/consumer.go:132-143 | A delivery that finds the order releases neither items nor quota. |
| AsyncOrder.Outcome | internal/order/consumer.go:77-163 | Over any deliveries there is an order if and only if one meets the circumstances to commit, and the items come back once per delivery before that which met those of an abort and whose release took effect. |
| AsyncOrder.CommittedItemsAreReservedIff | internal/order/consumer.go:77-163 | The order's items are reserved if and only if its message was not taken for unsent, or the release after that failed, and every delivery that was too old, could not be settled, or was rolled back and looked up again, and whose release took effect, came after a committing one. |
| AsyncOrder.CommittedQuotaIsHeldIff | internal/order/consumer.go:210-223 | A seckill order still has its quota if and only if the same holds for the calls that give the quota back. |
| AsyncOrder.RedeliveredAbortOversells | internal/order/consumer.go:210-223 | An unsettled or rolled-back task delivered again while young, or one whose sent message was taken for unsent, becomes an order with free items and quota; two aborts give the items back twice. |
| AsyncOrder.OrderOrRelease | internal/order/consumer.go:76-77 | A sent task has neither order nor release exactly while no delivery has committed or released, and exactly one of them if and only if one commits with no release before it, or none commits and one releases. |
| AsyncOrder.EnqueueEndsAs | internal/order/async.go:212-257 | A sent task is reserved, marked and pending; a failed one has reservation and mark undone, its quota given back and its ticket reported, as far as the calls take effect; the message is out exactly if the ticket was written and the broker has it. |
| AsyncOrder.DeliveryEndsAs | internal/order/consumer.go:77-223 | A whole delivery does nothing without a readable order table; reports the order it finds or makes, its mark gone and its quota settled; gives up a task that is too old, cannot be settled or was rolled back; and leaves things as they are when it cannot tell. |
| AsyncOrder.Handler.HandleAsyncOrderTask | internal/order/consumer.go:77-163 | The handler, cut short after any number of effects, has done exactly that prefix of its plan. |
| CircuitBreaker.RunKeepsInv | middleware/circuitbreaker.go:31-43 | In every run, in a half-open round, min(halfOpenReq, max) - halfOpenSuccess is the number of that round's probes still out, and a closed breaker counts the failures in a row. |
| CircuitBreaker.NeverStuck | middleware/circuitbreaker.go:66-78 | The breaker is never half-open with no probe out and no slot left. |
| CircuitBreaker.ReportDecides | middleware/circuitbreaker.go:128-159 | Reports of other rounds change nothing; a round closes on its last needed success and not before, reopens on any failure; a closed breaker opens exactly at the threshold of failures in a row; whichever opens it, the timeout starts then. |
| CircuitBreaker.EntryDecides | middleware/circuitbreaker.go:90-126 | A closed breaker lets every request through and does not change, an open one refuses all until its timeout is over, and a round lets through the allowed probes and no more. |
| CircuitBreaker.ClosingLeavesNoProbe | middleware/circuitbreaker.go:151-157 | A round that closes the breaker leaves none of its probes out. |
| CircuitBreaker.Recovers | middleware/circuitbreaker.go:45-49 | From any open state, after the timeout, the full number of probes gets in and their success closes the breaker with a clean count. |
| CircuitBreaker.Switch.TryEnter | middleware/circuitbreaker.go:90-126 | The method is the entry of the runs. |
| CircuitBreaker.Switch.Leave | middleware/circuitbreaker.go:131-159 | The method is the report of the runs. |
| Web3Scanner.HidesIff | service/web3/listener.go:414-451 | A call leaves its event hidden behind its claim if and only if the event is unwritten and either a new claim is stranded by a failed write with a lost claim reply or a failed release, or an old claim is met and not written past. |
| Web3Scanner.HiddenEventIsSkipped | service/web3/listener.go:414-435 | After such a call every later one that Redis answers reports success and writes nothing. |
| Web3Scanner.ChunkCovers | service/web3/listener.go:324-356 | A handled chunk extends the covered blocks to its end, or to the block before its first failure, whatever the order of its logs. |
| Web3Scanner.Listener.HandleLog | service/web3/listener.go:376-436 | The handler is that function, for every ending of its three calls; success means written or hidden. |
| Web3Scanner.Listener.HandleChunk | service/web3/listener.go:324-347 | The lowest block with a failed write is reported, every log below it is done, and nothing is reported if no write failed; a failure in block 0 reads like none. |
| Web3Scanner.Listener.ScanChunk | service/web3/listener.go:316-357 | If the save succeeds the watermark is at the end of the chunk, or just before its first failure. |
| Web3Scanner.Listener.ScanConfirmed | service/web3/listener.go:286-360 | The chunks tile the blocks from the watermark on up to head less depth, ending early only at a failed query or write; with all saves done the watermark is there; it never falls or passes it, and every log up to the end of the last chunk is written, malformed, removed or hidden. |
| Web3Scanner.Listener.Rounds | service/web3/listener.go:261-283 | Over any rounds, each with its own head and node, a log of the range is missing if and only if its claim hides it, none is if no call stranded its claim, and after any round whose calls succeed its safe block is reached, however the rounds before went. |
| Web3Scanner.LoseEvent | service/web3/listener.go:414-435 | A run in which a lost claim reply and a failed write lose an event: the next scan, without any failure, moves the watermark past it. |
| Discounts.RankPromoRules | internal/promo/service.go:77-92 | The result is the qualifying rules, descending by discount and stable. |
| Discounts.RankingIsUnique | internal/promo/service.go:77-92 | There is only one such arrangement, so this determines the result. |
| Discounts.SortStable | internal/promo/service.go:90-90 | The sort is a stable descending arrangement of its input. |
| Discounts.SumApplicable | internal/promo/service.go:107-116 | The loop sums exactly the items the rule applies to. |
| Discounts.DiscountIsPart | internal/promo/service.go:131-151 | No rule takes off more than the cart's subtotal. |
| Discounts.RuleLeaves | internal/promo/service.go:131-151 | What a rule leaves to pay: everything below its threshold, base less amount down to nothing, or the percentage rounded up. |
| Discounts.ScopeDecides | internal/promo/service.go:118-129 | A rule counts the whole cart, the items of its category, or those of its product. |
| Discounts.QualifyingExactly | internal/promo/service.go:77-88 | Candidates are exactly the rules that take something off. |
| Discounts.RankingIsSane | internal/promo/service.go:77-92 | Ranked candidates are descending, positive and at most the subtotal. |
| Discounts.KeptCandidatesAreSane | internal/promo/service.go:205-210 | Dropping candidates without budget keeps that. |
| Discounts.AllowedCandidatesAreKept | internal/promo/service.go:205-210 | Exactly the candidates with budget are kept. |
| Discounts.CouponIsMonotone | internal/coupon/model.go:30-50 | On a larger base an accepted coupon takes off no less, and never more than the base. |
| Discounts.CouponLeaves | internal/coupon/model.go:30-50 | What a coupon leaves to pay: everything below its threshold, base less amount down to nothing, or the percentage rounded up. |
| Discounts.QuoteIsRefusedIff | internal/order/service.go:228-256 | A quote is refused only for a coupon that takes nothing off behind the best promotion, and always below its threshold. |
| Discounts.ApplyDiscounts | internal/order/service.go:270-311 | An accepted quote never fails its coupon threshold, however many budgets are used up; the first promotion with budget is taken with its rule, the coupon on the rest, and the final amount is subtotal less both and not negative, so the clamp never acts. |
| PromoBudget.RunKeepsBudget | internal/promo/repo.go:85-137 | While charges reach the row in the order of their days, the counter is the sum charged on its day less what was restored, within a limited budget. |
| PromoBudget.StaysRightIff | internal/promo/repo.go:85-137 | Whatever the order of days, a step leaves the counter equal to what the orders of its day hold if and only if it does not turn the rule to a day already charged or give back to a day it was not taken from. |
| PromoBudget.AlwaysRightIff | internal/promo/repo.go:85-137 | Over every run the counter is right in every state if and only if no step of it does that. |
| PromoBudget.LateChargeForgets | internal/promo/repo.go:99-120 | A charge whose day was read before midnight sets the rule back to that day after the new one is used up, and the new day's budget is handed out twice. |
| PromoBudget.ReleaseRestoresIff | internal/promo/service.go:282-335 | A first release gives the budget back if and only if the order was created on the rule's current budget day; later releases, and releases on a later day, change nothing. |
| PromoBudget.ChargedPastMidnightIsNeverRestored | internal/promo/repo.go:122-137 | An order charged after the midnight of its creation keeps its share of that day's budget in every continuation. |
| PromoBudget.ReleaseAfterMidnightKeepsCharge | internal/promo/service.go:282-335 | From any reachable state with an active rule: such an order is charged and released, and the budget stays used. |
| PromoBudget.TrialPredictsCharge | internal/promo/service.go:94-105 | The trial on the current row allows exactly what the update charges. |
| PromoBudget.RuleRow.AtomicConsumeBudget | internal/promo/repo.go:85-120 | The update with its lazy daily reset charges exactly an active rule whose budget for that day covers it. It is the charge of the runs. |
| PromoBudget.RuleRow.RestoreBudget | internal/promo/repo.go:122-137 | The conditional update gives back exactly to the day it was taken from. It is the restore of the runs. |
| PromoBudget.RuleRow.ReleaseDiscount | internal/promo/service.go:294-335 | The release row comes first, so a redelivery touches nothing. |

## Left out

- HTTP handlers, DTOs, configuration, logging, migrations, caches of reads and the clients of RabbitMQ, Redis, Milvus, ES, Stripe and Xcash: only their effect is modelled.
- Encryption, passwords, signatures, share codes, float price parsing and decimal parsing: outside of what the protocols decide.
- Stripe and Web3 settlement beyond their shared payment transaction, and anomaly handling by operators, which moves no money.
- Who calls and when: that a buyer acts on his own order, the windows of preorders, and a group's time to live, except where a parameter stands for it.
- Physical deletion of orders, and orders older than clearing rows: they only add exceptions to the order results.
- Coupon claiming and expiry, and the coupon row's status updates: single conditional updates with an obvious effect.
- A failed call that settles a ticket after its order is built: the ticket stays in flight, and its settlement is a step of its own in the seckill runs, taken by the reconciler.
- The interleaving of two deliveries of one async task, or of a delivery with the end of its own enqueueing; a crash is a delivery cut short.
- The min of two leak samples: it is not a proof of a leak, so only the release it leads to is modelled.
- An early red packet refund does not prove a lost pool, so no such claim is made; money and shares are conserved either way.
- Web3Scanner.Listener.HandleChunk: nothing is promised for a chunk that mixes block 0 with others, which no scan asks for; the code's marker for "no failure" is 0.
- Web3Scanner.Listener.HandleLog: the expiry of claims is not modelled; a crash between claim and insert leaves the marks of a lost claim reply with a failed write.
- The lock-free fast path of the breaker as two separate loads: an entry is one step.
- Wrap-around of 64-bit counters and amounts: amounts are limited far below it.
