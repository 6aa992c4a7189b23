# The Dobbscoin bridge, modelled

The bridge holds Dobbscoin and issues wBOB for it one to one. Watchers follow the Dobbscoin chain and
record deposits; the backend splits each finalised deposit against the daily mint cap, mints, reads burns
off Gnosis, pays withdrawals out of one pool of coins and refunds what was over the cap. This project models
that state and proves what has to hold over every run.

| part | files |
|---|---|
| Pool of coins, payouts, refunds, solvency | `Coins`, `Ledger`, `LedgerCoins`, `LedgerInvariant`, `LedgerSteps`, `LedgerMoney`, `LedgerRuns`, `Solvency`, `PoolSelection`, `Database`, `PayoutExecutor`, `RefundExecutor`, `BurnConfirmer` |
| Coin selection and transaction amounts | `CoinSelection` |
| Mint cap, mint pipeline, signatures | `MintCapacity`, `MintMachine`, `MintExecutor`, `Signatures` |
| Following the Dobbscoin chain | `BlockTree`, `ReorgDetector`, `BlockPoller`, `Watcher` |
| Deposits | `Confirmations`, `DepositHandler` |
| Withdrawals off Gnosis | `GnosisScanner`, `BurnVerifier`, `Destination` |
| Codecs | `Radix`, `Base58`, `TxParser` |
| Sums | `Sums` |

`Ledger` and `MintMachine` are state machines: each database transaction, node answer, chain event, operator
step and crash is one action, and the theorems in `LedgerRuns`, `Solvency` and `MintMachine` speak of every
state reachable by any interleaving of them. `PayoutExecutor`, `RefundExecutor` and `MintExecutor` are the
jobs of the source as methods on classes; each writes the tables as the source does, and its contract says
that what it did is a run of the machine, so the theorems hold of it. Payouts and refunds work on one database,
and a mint decision books its coin and its refund in that same database. The other classes are proved directly
against their specifications.

These properties, which the code or its comments suggest, are not true as they stand, and are stated exactly instead:

- The input parser of `tx-builder.ts:67-88` reads its offset before the length prefix moves it (line 84). It
  is right for all transactions of n inputs if and only if n is 1 (`TxParser.WhenParserIsRight`).
- The supply is backed unless an output is decided for on two orders: the coin enters the pool once
  (`mint-executor.ts:334-345`), the mint is authorised twice. It is backed if and only if what was decided twice does
  not exceed what the bridge still owes beyond supply (`LedgerRuns.Backing`, `Solvency.DecidedTwiceLosesBacking`);
  a quote on an address that is also tracked can get there (`DepositHandler.RecordedOnTwoOrders`).
- The solvency monitor counts available coins only. It never calls an unbacked bridge solvent, and its verdict is
  right if and only if the reserved coins do not make the difference (`Solvency.VerdictIsRightIff`,
  `Solvency.FalseAlarm`).
- A block handled completely (`block-handler.ts:89-94`) has every payment recorded if and only if no pending address
  that is not tracked is paid by a second output of it (`DepositHandler.EveryPaymentIff`,
  `DepositHandler.SecondPaymentIsLost`).
- Replaying a block is idle if and only if no two pending quote orders share an address
  (`DepositHandler.ReplayIsIdleIff`).
- A tip that forks off the recorded one less than the depth below it can be followed (`reorg-detector.ts:29-50`) as long
  as tips do not get lower, but not always after a shorter branch was followed: exactly if the recorded tip's ancestor
  that far down still has a known ancestor (`BlockPoller.BlockPoller.FollowsForksIff`, `BlockPoller.ShorterBranchForgets`).
- Stored destinations longer than 64 bytes keep only their length and first 64 bytes
  (`Destination.StoredValueDetermines`).
- Payouts confirm, and burns are queued, in two transactions each. An order left between them stays at
  PAYOUT_CONFIRMED or BURN_CONFIRMED: no job selects those states (`PayoutExecutor.PayoutExecutor.ConfirmOne`,
  `BurnConfirmer.BurnConfirmer.ConfirmPendingBurns`).

## Model

| member | source | states |
|---|---|---|
| `CoinSelection.SelectUtxos` | backend/src/dobbscoin/tx-builder.ts:114-140 | Succeeds exactly when some choice of available coins pays the target plus that choice's own fee, and then uses the fewest coins any such choice can; the failure reports everything available |
| `CoinSelection.Dominance` | backend/src/dobbscoin/tx-builder.ts:119-136 | The first k coins of a largest-first list are worth at least as much as any k coins of it |
| `CoinSelection.CoversMonotone` | backend/src/dobbscoin/tx-builder.ts:129-133 | More value in as many coins still covers, even where it makes a change output necessary |
| `CoinSelection.CoversMeans` | backend/src/dobbscoin/tx-builder.ts:129-133 | Enough means more than the target and a fee for two outputs, or, when fees are free, exactly the target |
| `CoinSelection.FeeIsForChange` | backend/src/dobbscoin/tx-builder.ts:129-133 | The fee of a selection is for two outputs whenever something is left over, and nothing is left over only where fees are free |
| `CoinSelection.LargestFirstSorts` | backend/src/dobbscoin/tx-builder.ts:119-121 | The ordering is a permutation of the coins with amounts descending |
| `CoinSelection.BuildPayout` | backend/src/dobbscoin/tx-builder.ts:247-276 | Inputs are distinct available coins worth recipient + change + fee, the recipient gets the whole amount, no output is at or under dust; with change the fee is that of two outputs, without it at most 546 above that, and the errors are exactly dust and no sufficient choice |
| `CoinSelection.PlanRefund` | backend/src/dobbscoin/tx-builder.ts:176-221 | The loop computes the plan function, errors included |
| `CoinSelection.RefundOrder` | backend/src/dobbscoin/tx-builder.ts:182-190 | No other coin comes before the deposit's own, and the others come largest first |
| `CoinSelection.PlanOfHolds` | backend/src/dobbscoin/tx-builder.ts:154-221 | A plan is made on the shortest prefix of the preferred-first order that reaches the excess and spends exactly that prefix: it is too small, with that fee, if and only if the fee for the prefix (two outputs exactly when it leaves more than dust) leaves dust or less; the other errors are exactly non-positive and short of coins. Every plan conserves value, inputs - change - bridge fee is exactly the excess, and the bridge fee is at most dust and zero when there is change |
| `CoinSelection.PlanEnds` | backend/src/dobbscoin/tx-builder.ts:176-221 | Which way planning ends, told by the coins: a plan, an excess of nothing, coins short of the excess, or a fee of the shortest prefix that leaves dust |
| `CoinSelection.RefundSpendsItsDeposit` | backend/src/executor/mint-executor.ts:349-363 | An excess not called too small is never too small to plan while its deposit coin is in the pool; the refund spends that coin alone and its change is the minted part when above dust |
| `TxParser.TxInputsFromRaw` | backend/src/dobbscoin/tx-builder.ts:67-88 | The loop as written, with its offset read before the length moves it, computes the as-written parser with its errors |
| `TxParser.IntendedInverts` | backend/src/dobbscoin/tx-builder.ts:63-88 | With the intended cursor advance the parser returns every outpoint of every serialized legacy transaction, in order, for any input count and script lengths below 2^32 |
| `TxParser.AsWrittenOneInput` | backend/src/dobbscoin/tx-builder.ts:80-86 | As written it returns the outpoint of every one-input transaction |
| `TxParser.AsWrittenTwoInputs` | backend/src/dobbscoin/tx-builder.ts:80-86 | As written it is right on a two-input transaction exactly when the second outpoint's bytes look the same one length-prefix earlier |
| `TxParser.AsWrittenNeedsBlur` | backend/src/dobbscoin/tx-builder.ts:84 | The necessary half of that condition for any number of inputs above one |
| `TxParser.AsWrittenMisreadsFinalInputs` | backend/src/dobbscoin/tx-builder.ts:84 | With final sequence numbers and ordinary outpoints the second input is always misread |
| `TxParser.WhenParserIsRight` | backend/src/dobbscoin/tx-builder.ts:67-88 | As written the parser is right for all transactions of n inputs if and only if n is 1 |
| `Base58.Encode` | watcher/src/deposits/bridge-address.ts:21-27 | The division loop and the leading-zero loop produce text from which the decoder recovers the bytes |
| `Base58.RoundTrip` | watcher/src/deposits/bridge-address.ts:21-27 | Decoding the encoding of any byte sequence, leading zeros included, gives it back |
| `Base58.TextRoundTrip` | watcher/src/deposits/bridge-address.ts:17-27 | Encoding what any text over the alphabet decodes to gives that text back: the encoding reaches every such text |
| `Base58.EncodingInjective` | watcher/src/deposits/bridge-address.ts:21-27 | Different byte sequences have different encodings |
| `Base58.EncodeCheck` | watcher/src/deposits/bridge-address.ts:30-35 | The payload followed by four checksum bytes is what the address decodes to |
| `Base58.AddressesInjective` | watcher/src/deposits/bridge-address.ts:30-43 | Different payloads have different addresses, whatever the checksum function |
| `Radix.RebaseRoundTrip` | watcher/src/deposits/bridge-address.ts:21-27 | Changing the base of a numeral and back restores it, leading zeros and all |
| `Radix.ValueOfDigits` | watcher/src/deposits/bridge-address.ts:22-25 | The digits a division loop produces denote the number |
| `Radix.DigitsOfValue` | watcher/src/deposits/bridge-address.ts:22-25 | They are the only numeral without leading zeros that does |
| `Destination.GuardMatchesIngest` | backend/src/gnosis/destination.ts:35-63 | The payout guard refuses a stored value if and only if ingest flagged it invalid |
| `Destination.ValidIsKept` | backend/src/gnosis/destination.ts:35-52 | Stored byte for byte are exactly the strings of 1 to 128 printable ASCII characters that do not start with the sentinel; everything else is flagged, with exactly the reasons that hold of it |
| `Destination.StoredForm` | backend/src/gnosis/destination.ts:35-56 | Every stored value is nonempty printable ASCII of bounded length |
| `Destination.StoredValueDetermines` | backend/src/gnosis/destination.ts:43-55 | Two inputs are stored alike exactly when they are equal or both invalid with the same length and first 64 bytes; up to 64 bytes the stored value determines the input |
| `MintCapacity.SplitIsTight` | backend/src/executor/mint-capacity.ts:97-113 | Mint and excess add up to the deposit, reservations plus the minted part pass the contract's limits, and with an excess one unit more would not |
| `MintCapacity.WindowIsWhatTheContractAccepts` | backend/src/executor/mint-capacity.ts:69-94 | What remains in the window is exactly what the contract of lines 4-13 would accept at that time |
| `MintCapacity.WindowFollowsRollover` | backend/src/executor/mint-capacity.ts:73-92 | After an accepted mint, rollover included, the window has the same start and that much less left |
| `MintCapacity.SumOutstandingReservations` | backend/src/executor/mint-capacity.ts:144-154 | The loop sums exactly the reservations whose transaction is not known to be mined |
| `MintCapacity.FewerMinedCountsMore` | backend/src/executor/mint-capacity.ts:135-154 | A receipt that was missed only makes the reserved sum larger |
| `MintMachine.CapNeverOverrun` | backend/src/executor/mint-executor.ts:241-389 | On every run, minted today plus everything still authorised is within the daily limit, supply plus that within MAX_SUPPLY, and each authorised or pending mint passes the contract's checks in any later block |
| `MintMachine.StepKeeps` | backend/src/executor/mint-executor.ts:241-873 | Every action of decide, reissue, sign, prune, send, mine, revert, burn, confirm, day rollover and crash keeps the invariant |
| `MintMachine.DecisionFits` | backend/src/executor/mint-executor.ts:250-258 | An amount decided on a reading still fits when it is written, whatever the chain did in between |
| `MintMachine.DecisionIsTight` | backend/src/executor/mint-executor.ts:250-258 | A decision leaves an excess only when the capacity it was made on is used to the last unit |
| `MintMachine.MinedOwed` | backend/src/executor/mint-capacity.ts:135-154 | Mining a transaction takes at least its amount out of what is owed |
| `MintMachine.SettleKeeps` | backend/src/executor/mint-executor.ts:787-839 | Completing or failing a submitted order frees no capacity the contract could still spend |
| `MintExecutor.MintExecutor.DecideSplit` | backend/src/executor/mint-executor.ts:250-258 | Reads the cap, then the reservations and their receipts while the chain moves on; the decision is the split of those readings over the rows that reserve, and the receipts counted are exactly those of the reserving rows' mints that were answered and mined by the block read |
| `MintExecutor.MintExecutor.CreatePendingAuths` | backend/src/executor/mint-executor.ts:263-405 | Every finalised deposit without a decision gets one unless its transaction fails: the minted part, authorised and unsigned, is the split of the capacity read then, less what the rows reserved at that moment; no other row changes, and each decision is booked in the pool and the refunds, in order, and nothing else is |
| `MintExecutor.MintExecutor.BookDeposit` | backend/src/executor/mint-executor.ts:334-363 | The coin enters unless its output is in the pool already; without an excess no refund row is added, and with one exactly one, for this outpoint and this excess, without an address or a signature: too small if and only if the excess less the one-input, two-output fee is at most dust, and queued otherwise. Older coins and rows stay |
| `Ledger.AfterDepositBooks` | backend/src/executor/mint-executor.ts:334-363 | The ledger step of a deposit: its coin once, no refund row without an excess, and otherwise one row for that outpoint and excess, unsigned and without an address, too small if and only if the excess less the one-input, two-output fee is at most dust and queued otherwise |
| `MintExecutor.MintExecutor.ExcessIsBooked` | backend/src/executor/mint-executor.ts:334-363 | After a pass every decision with an excess has such a refund row of its own |
| `MintExecutor.MintExecutor.RefundIsOfExcess` | backend/src/executor/mint-executor.ts:334-363 | ...and every new refund row is the excess of one of the decisions |
| `RefundExecutor.RefundExecutor.NewRefundIsWorthSending` | backend/src/executor/mint-executor.ts:349-363 | A refund a decision just queued is worth sending, from its own coin, as soon as it has an address |
| `MintExecutor.MintExecutor.RegenerateExpiredAuths` | backend/src/executor/mint-executor.ts:409-535 | Exactly the stale unsent rows are reissued, amount and hash kept and signatures cleared, except those the contract already processed, which are only flagged |
| `MintExecutor.MintExecutor.ReissuedIsCurrent` | backend/src/executor/mint-executor.ts:409-535 | After the pass an unsent authorisation that could be looked at and is not minted yet is for the contract's nonce and good for more than a minute: untouched if it was so before, otherwise for the same amount without a signature |
| `MintExecutor.MintExecutor.SubmitOne` | backend/src/executor/mint-executor.ts:597-684 | Sends if and only if three different signers signed the exact authorisation of the row and the simulation accepts, and then one signature of each from the row, written down unless the process dies; with too few the list is pruned and the stored count drops below three unless a watcher added to it; a refusal is recorded |
| `MintExecutor.MintExecutor.SubmitReadyMints` | backend/src/executor/mint-executor.ts:561-684 | Every row ready when the job read it has its turn, which ends as its signatures, its simulation and a lost write call for; every other row is left to the watchers; and the mints sent are exactly those of these turns, in order |
| `MintExecutor.MintExecutor.ReadyIsSubmitted` | backend/src/executor/mint-executor.ts:561-684 | A mint goes out if and only if its row is authorised and unsent with three signatures stored, more than a minute left, not known to be minted, three signers of this authorisation in its list and an accepted simulation; then it is submitted under that hash unless the process dies |
| `MintExecutor.MintExecutor.PruneSignatures` | backend/src/executor/mint-executor.ts:721-742 | Replaces the list only while it is still what was read, and only when something was dropped |
| `MintExecutor.MintExecutor.ConfirmSubmittedMints` | backend/src/executor/mint-executor.ts:787-873 | Exactly the mined submissions whose receipt could be read move, failed or completed as the receipt says |
| `MintExecutor.MintExecutor.Poll` | backend/src/executor/mint-executor.ts:877-894 | The four jobs in order, each doing to what it finds exactly what its pass says, with the world moving in between; the mints sent are exactly those of the submitting job, the decisions are booked and nothing else is, and it ends within the cap |
| `Signatures.Validate` | backend/src/executor/mint-executor.ts:686-718 | Keeps exactly one entry for each signer who validly signed anywhere in the list, whatever stale, duplicate or malformed entries surround it |
| `Signatures.KeptAdd` | backend/src/executor/mint-executor.ts:709-712 | Adding the first valid entry of a signer keeps the list exact |
| `Signatures.KeptSkip` | backend/src/executor/mint-executor.ts:709-715 | Dropping an invalid or repeated entry keeps the list exact |
| `LedgerRuns.PoolAccounts` | backend/src/executor/payout-executor.ts:613-689 | On every run, available plus reserved coins, recorded fees and what was decided twice for one output equal deposits less broadcast payouts less broadcast excess, and that is the wBOB supply plus burned-not-paid + excess-not-refunded + decided-not-minted, each of them non-negative |
| `LedgerRuns.Backing` | backend/src/executor/mint-executor.ts:334-345 | On every run, coins and fees are the supply plus what is owed less exactly what was decided twice for one output; that is zero if and only if no output was decided twice, and the supply is backed if and only if it does not exceed what is owed |
| `LedgerRuns.OnePayment` | backend/src/executor/payout-executor.ts:492-610 | Of all transactions signed for one withdrawal at most one was ever sent without a definite refusal; it pays the burned amount to the burn's destination, it is the newest, and its inputs are still the payout's |
| `LedgerRuns.AttemptsBalance` | backend/src/executor/payout-executor.ts:853-891 | Attempts less refusals is exactly the sends not refused, plus those that never left, plus refusals that were not written down, plus the one in progress |
| `LedgerRuns.ReleaseOnlyWhenNothingIsOut` | backend/src/executor/payout-executor.ts:566-582 | Inputs are released, and a second transaction is signed, only when no transaction of the withdrawal may be on the network |
| `LedgerRuns.CommitsInState` | backend/src/executor/payout-executor.ts:613-649 | With one process a broadcast is committed only while the order is PAYOUT_SIGNED with its inputs reserved, so the out-of-state branch is never taken |
| `LedgerRuns.ReservationDiscipline` | backend/src/executor/payout-executor.ts:467-479 | A coin is available exactly when nothing owns it, what a payout or refund owns is exactly the inputs of its newest unreleased transaction, and those inputs are disjoint between any two |
| `LedgerRuns.ChangeIndexesAreFresh` | backend/src/executor/refund-executor.ts:72-89 | No two signatures with change, payout or refund, ever use one change index |
| `LedgerRuns.StepKeeps` | backend/src/executor/payout-executor.ts:182-948 | Each of the ledger's actions, operator steps and crashes included, keeps the invariant |
| `LedgerSteps.AttemptKeeps` | backend/src/executor/payout-executor.ts:861-891 | A history that counts zero earlier attempts really has nothing out |
| `LedgerSteps.AnswerKeeps` | backend/src/executor/payout-executor.ts:525-564 | Whatever the node answers, the books of attempts balance |
| `LedgerSteps.ForgetKeeps` | backend/src/executor/payout-executor.ts:539-547 | Dropping a send, or dying in it, keeps the books balanced |
| `LedgerMoney.SignPayoutKeeps` | backend/src/executor/payout-executor.ts:408-485 | Signing reserves exactly the inputs and moves no value |
| `LedgerMoney.CommitKeeps` | backend/src/executor/payout-executor.ts:651-688 | Committing a payout spends its inputs, takes the change back and accounts for amount and fee |
| `LedgerMoney.ReleaseKeeps` | backend/src/executor/payout-executor.ts:894-923 | Releasing returns exactly the payout's inputs to the pool |
| `LedgerMoney.SignRefundKeeps` | backend/src/executor/refund-executor.ts:294-341 | Signing a refund reserves exactly its inputs and moves no value |
| `LedgerMoney.CommitRefundKeeps` | backend/src/executor/refund-executor.ts:382-414 | Committing a refund takes the excess and the bridge's sliver of fee out of the pool, no more |
| `LedgerMoney.DepositKeeps` | backend/src/executor/mint-executor.ts:334-363 | Whether or not its output was decided before, the whole deposit is split into what is minted and what is refunded; its coin enters the pool once, and a repeat counts as repeated |
| `LedgerMoney.ArrivalsStep` | backend/src/executor/mint-executor.ts:334-345 | On every step the coins from outside stay exactly those of the decided outputs, one each |
| `LedgerMoney.ChangeIsFresh` | backend/src/executor/payout-executor.ts:660-674 | The change output being committed is not in the pool yet, so the insert never meets a conflict |
| `LedgerCoins.SpendUnspent` | backend/src/executor/payout-executor.ts:655-658 | Spending what an owner holds lowers the pool by exactly its value |
| `LedgerCoins.ReserveOwned` | backend/src/executor/payout-executor.ts:467-479 | After reserving, the owner holds exactly the picked coins and their value |
| `PoolSelection.BuiltIsPayable` | backend/src/executor/payout-executor.ts:370-405 | Whatever the builder makes from the pool can be reserved: distinct available coins worth exactly what the transaction spends |
| `PoolSelection.PickedIsTotal` | backend/src/executor/payout-executor.ts:383-389 | The table rows picked by outpoint are worth what selection counted |
| `PoolSelection.AvailableIsOffered` | backend/src/executor/payout-executor.ts:370-381 | Every available coin of the table is offered to selection |
| `Database.Database.ReserveInputs` | backend/src/executor/payout-executor.ts:467-479 | Reserves all inputs exactly when they are distinct and all available; a lost race leaves the pool as it was |
| `Database.Database.NextChangeIndex` | backend/src/executor/refund-executor.ts:77-89 | One above the highest index in the coins, the refunds and every signature of the trail |
| `PayoutExecutor.PayoutExecutor.ProcessOne` | backend/src/executor/payout-executor.ts:206-290 | An unpayable or already sent order is parked, held inputs mean the same transaction again, and a new signature, of the burned amount to the burn's destination, needs the checks to be clear: a node that knows no older transaction, unspent older inputs, a proven burn. When one of them defers the order is as it was, when one refuses it is parked; when all are clear it is signed exactly when some coins can pay it and the transaction is written, otherwise parked |
| `PayoutExecutor.PayoutExecutor.NodeKnowsNone` | backend/src/executor/payout-executor.ts:236-253 | Clear exactly when the node knows none of the transactions signed and nothing spent their inputs; otherwise the first one that is not clear decides, and its verdict is returned |
| `PayoutExecutor.LogVerdictMeans` | backend/src/executor/payout-executor.ts:236-341 | The verdict refuses exactly when the first transaction that is not clear is in the pool or the chain, or had its inputs spent, and defers exactly when the node could not be asked about it |
| `PayoutExecutor.PayoutExecutor.BuildAndSign` | backend/src/executor/payout-executor.ts:370-488 | Signs exactly when some choice of the available coins pays the amount and its fee and the transaction is written; otherwise the order is as it was. Coins arriving meanwhile do not disturb it, and with one process reserving cannot lose a race |
| `PayoutExecutor.PayoutExecutor.ProcessQueued` | backend/src/executor/payout-executor.ts:182-291 | Every order queued and reached ends exactly as its checks and the pool at its turn call for, and the pool at a turn is the pool before less what earlier orders of the pass took; every other row is left alone |
| `PayoutExecutor.PayoutExecutor.BroadcastOne` | backend/src/executor/payout-executor.ts:514-609 | The attempt is written before sending, only the newest transaction is sent or recorded as sent, and the row and the coins end exactly as the answer calls for: recorded with its txid, inputs spent and change taken; or parked and freed; or parked or kept with the inputs held. A process that dies leaves the row signed with the attempt on record |
| `PayoutExecutor.PayoutExecutor.HandleRefusal` | backend/src/executor/payout-executor.ts:566-608 | The inputs are freed if and only if it is a definite refusal of the first possible send, never operator-retried, by a node that does not hold the transaction |
| `PayoutExecutor.PayoutExecutor.HandleAnswer` | backend/src/executor/payout-executor.ts:525-609 | Recorded as sent, inputs spent and change taken back, exactly when the node has the transaction; otherwise released, kept for another poll or parked with the inputs held, each exactly when the source says |
| `PayoutExecutor.PayoutExecutor.BroadcastSigned` | backend/src/executor/payout-executor.ts:492-514 | Every signed payout whose attempt could be written is sent once and ends, with its coins, as its own answer calls for; other rows and coins are left alone |
| `PayoutExecutor.PayoutExecutor.RetryOrPark` | backend/src/executor/payout-executor.ts:584-609 | Parks, inputs held, exactly when the failure is not transient or the 240 attempts since the last retry are used up; no coin moves |
| `PayoutExecutor.PayoutExecutor.DoCommitBroadcast` | backend/src/executor/payout-executor.ts:651-688 | Is exactly the ledger's commit step |
| `PayoutExecutor.PayoutExecutor.DoParkAndRelease` | backend/src/executor/payout-executor.ts:894-923 | Is exactly the ledger's release step |
| `PayoutExecutor.PayoutExecutor.RecordBroadcastAttempt` | backend/src/executor/payout-executor.ts:861-891 | Is exactly the ledger's attempt step, with the history read before it: attempts of this transaction less its recorded refusals, attempts since the last operator retry, and whether there was one |
| `Ledger.HistoryCounts` | backend/src/executor/payout-executor.ts:869-882 | Read back from the trail: the attempts less the refusals of a transaction, and its attempts after the last retry, as numbers of entries |
| `PayoutExecutor.PayoutExecutor.ConfirmOne` | backend/src/executor/payout-executor.ts:704-734 | At three confirmations or more a broadcast payout completes if both transactions are written, is left at PAYOUT_CONFIRMED if only the first is, and where it was if neither; with fewer it never confirms, and one the node forgot is sent again. The count of refused re-sends is kept, advanced or dropped as the look calls for |
| `PayoutExecutor.PayoutExecutor.ResendForgotten` | backend/src/executor/payout-executor.ts:743-793 | At most once per interval; exactly the third refused re-send in a row parks the order, a re-send that gets through restarts the count and an unreachable node leaves it; nothing else moves. The trail always holds the recorded transaction, so it is never parked for a missing one |
| `PayoutExecutor.PayoutExecutor.ConfirmBroadcast` | backend/src/executor/payout-executor.ts:693-734 | Every broadcast payout the node could be asked about ends as that look calls for, up to the first whose transactions fail; rows behind it are not reached, and the counts of refused re-sends carry to the next poll exactly |
| `PayoutExecutor.ConfirmedThrough` | backend/src/executor/payout-executor.ts:182-734 | No job of a round touches an order left at PAYOUT_CONFIRMED |
| `PayoutExecutor.PayoutExecutor.Poll` | backend/src/executor/payout-executor.ts:160-169 | The payout jobs in order, each doing to what it finds exactly what its pass says, ended by one that throws, and then the refund jobs in any case, stay on one run of the ledger; an order left at PAYOUT_CONFIRMED is still there afterwards |
| `BurnConfirmer.BurnConfirmer.ConfirmPendingBurns` | backend/src/gnosis/event-watcher.ts:359-396 | Exactly the seen burns at the depth move, to the queue if both transactions are written and to BURN_CONFIRMED if only the first is; a row already at BURN_CONFIRMED is not touched |
| `RefundExecutor.RefundExecutor.BuildTx` | backend/src/executor/refund-executor.ts:269-292 | Ends exactly as the coins call for: nothing to pay, coins short of the excess, a fee that leaves dust, or a transaction on the shortest prefix, the deposit's own coin first. A built refund costs the pool exactly the excess and the sliver; with its deposit coin available a refund worth sending spends that coin alone |
| `RefundExecutor.RefundExecutor.ResolveSenders` | backend/src/executor/refund-executor.ts:135-180 | Exactly the queued refunds without an address get the sender or go to a human, unless the node failed |
| `RefundExecutor.RefundExecutor.SignOne` | backend/src/executor/refund-executor.ts:239-267 | Nothing to pay goes to a human, too few coins wait, a fee that leaves dust is too small, an unreachable node waits, a failed transaction goes to a human with nothing reserved, and otherwise it is signed; while the deposit's coin is there an excess worth sending is signed from that coin alone |
| `RefundExecutor.RefundExecutor.SignQueued` | backend/src/executor/refund-executor.ts:239-267 | Every queued refund with an address that was announced ends as the pool at its turn calls for, and the pool at a turn is the pool before less what earlier ones took; other rows are left alone |
| `RefundExecutor.RefundExecutor.WriteSignature` | backend/src/executor/refund-executor.ts:294-341 | Is exactly the ledger's refund signature |
| `RefundExecutor.RefundExecutor.Commit` | backend/src/executor/refund-executor.ts:382-414 | Is exactly the ledger's refund commit |
| `RefundExecutor.RefundExecutor.BroadcastOne` | backend/src/executor/refund-executor.ts:357-414 | Recorded exactly when the node took it or already has it; a refused one waits for a human with its inputs and transaction kept, and one that could not be asked about is sent again |
| `RefundExecutor.RefundExecutor.BroadcastSigned` | backend/src/executor/refund-executor.ts:350-414 | Every signed refund is sent once and it and its coins end as its own answer calls for; other rows and coins are left alone |
| `RefundExecutor.RefundExecutor.ConfirmBroadcast` | backend/src/executor/refund-executor.ts:431-461 | Exactly the broadcast refunds with three confirmations become confirmed |
| `RefundExecutor.RefundExecutor.Poll` | backend/src/executor/refund-executor.ts:116-131 | The jobs in order, each doing to what it finds exactly what its pass says; one that fails does not stop the next |
| `Solvency.VerdictIsRightIff` | backend/src/monitor/checks.ts:32-45 | As the monitor counts, it says solvent if and only if what is reserved plus what was decided twice does not exceed what is burned and unpaid, over the cap and unrefunded, or decided and unminted; the deficit it shows is exactly the difference; it never calls an unbacked bridge solvent, and it is wrong exactly when only the reserved coins make the difference, so never when nothing is reserved |
| `Solvency.FalseAlarm` | backend/src/monitor/solvency-monitor.ts:86-90 | One deposit of 10000, half of it burned and its payout just signed: a reachable, backed state the monitor calls insolvent |
| `Solvency.DecidedTwiceLosesBacking` | backend/src/executor/mint-executor.ts:334-345 | One output of 10000 decided on two orders and minted for twice: a reachable state that is not backed |
| `ReorgDetector.ReorgDetector.ComputeDiff` | watcher/src/chain/reorg-detector.ts:71-113 | Null exactly for the same tip; otherwise the nearest known ancestor, the path from it to the tip in height order and the known blocks above it highest first; it gives up only when no known ancestor is within the bound, or none exists, or the node fails |
| `ReorgDetector.ReorgDetector.AddBlock` | watcher/src/chain/reorg-detector.ts:47-50 | Afterwards exactly the known blocks and the new one are known that are not more than the depth below it |
| `ReorgDetector.ImportMeans` | watcher/src/chain/reorg-detector.ts:47-50 | The same of the window as a sequence |
| `ReorgDetector.HoldsStill` | watcher/src/chain/reorg-detector.ts:114-121 | Adding a block whose parent is held leaves every block held: it and its ancestors are known down to where the process started and as far as nothing known is more than the depth above them |
| `ReorgDetector.HeldAncestor` | watcher/src/chain/reorg-detector.ts:114-121 | An ancestor of a held block within that range is known |
| `ReorgDetector.SortIsPermutation` | watcher/src/chain/reorg-detector.ts:106-110 | The sort keeps the blocks and orders the heights |
| `ReorgDetector.OrphansAre` | watcher/src/chain/reorg-detector.ts:99-107 | Orphaned are exactly the known blocks above the ancestor |
| `ReorgDetector.Walked` | watcher/src/chain/reorg-detector.ts:83-95 | Sorting what the walk collects gives the path upward from where it stands |
| `BlockPoller.BlockPoller.CatchUp` | watcher/src/chain/block-poller.ts:102-138 | When the cursor's branch forks within the seeded depth it emits exactly the stale blocks from the cursor down to the fork and then exactly the blocks from the fork to the tip, and with nothing failing it succeeds; on success every orphan's handler ran to its end. Too many pending blocks, exactly when they exceed the limit, or a node whose tip is a proper ancestor of the cursor, cause no event; without a cursor it starts at the tip |
| `BlockPoller.CatchUpExplained` | watcher/src/chain/block-poller.ts:121-135 | From a window seeded with the cursor and its ancestors the diff is that exact one |
| `BlockPoller.SeedsOrphan` | watcher/src/chain/block-poller.ts:121-127 | Of the seeds, exactly the cursor's branch above the fork is orphaned, cursor first |
| `BlockPoller.SeedsClosed` | watcher/src/chain/block-poller.ts:121-127 | The seeds hold the cursor and its ancestors to the depth |
| `BlockPoller.NearestIsFork` | watcher/src/chain/block-poller.ts:118-127 | The nearest seeded ancestor of the tip is the fork |
| `BlockPoller.BlockPoller.SeedWindow` | watcher/src/chain/block-poller.ts:121-127 | The loop seeds exactly the cursor and its ancestors to the given depth; pruning removes none of them |
| `BlockPoller.BlockPoller.AdvanceTo` | watcher/src/chain/block-poller.ts:159-189 | Emits the orphans and then the new blocks, or a prefix of that on failure; the tip is recorded only on success, and then every block up to it was handled and the handler of every orphan ran to its end |
| `BlockPoller.BlockPoller.Poll` | watcher/src/chain/block-poller.ts:144-156 | After a successful poll every block up to the node's tip, bootstrap aside, has been handled at least once, for arbitrary reorgs, and it emitted exactly the orphans and blocks of its diff. With nothing failing it succeeds if and only if there was no tip, the tip is the same or it has a known ancestor, which is so for every tip that forks off the recorded one where no known block is more than the depth above the fork |
| `BlockPoller.BlockPoller.FollowsForksIff` | watcher/src/chain/block-poller.ts:144-189 | Every tip forking off the recorded one at most the depth below it can be followed if and only if the recorded tip's ancestor at that depth has a known ancestor |
| `BlockPoller.BlockPoller.FollowsFromTop` | watcher/src/chain/block-poller.ts:144-189 | ...and that is so as long as nothing known is above the recorded tip |
| `BlockPoller.ShorterBranchForgets` | watcher/src/chain/block-poller.ts:164-168 | Not in general: after following a branch two blocks shorter, with a depth of three, a fork two below the recorded tip has no known ancestor |
| `BlockPoller.Live` | watcher/src/index.ts:245-271 | Over a whole life of the process, retries and failures included, the recorded tip is that of the last call that was done, every block up to it was handled, and every block up to the saved cursor stays finished |
| `BlockPoller.CatchUpLoop` | watcher/src/index.ts:245-265 | Catching up is retried until it succeeds or is too far behind; a new process remembers nothing but the cursor |
| `Watcher.Watcher.OnBlock` | watcher/src/index.ts:210-220 | The cursor moves to a block exactly if it and every block of this run before it were handled with a complete answer, and then every ancestor above the bootstrap point was; after the first failure it stays for the rest of the run |
| `BlockTree.AncestorsComparable` | watcher/src/chain/reorg-detector.ts:79-97 | Two ancestors of one block are on one line, so heights decide which is nearer |
| `GnosisScanner.GnosisScanner.ProcessNewWithdrawals` | backend/src/gnosis/event-watcher.ts:177-265 | Whatever fails, events, node, halt notes or watermark writes, no event between the first and the current watermark is missing or recorded twice, the watermark never falls and never passes tip minus depth, and a clean sweep ends exactly there with the halt cleared; it halts only at an event that could not be recorded and fails only when a call did |
| `GnosisScanner.GnosisScanner.ScanWindow` | backend/src/gnosis/event-watcher.ts:189-260 | A window of at most a chunk is recorded whole, or the watermark stops just below the first event that failed and the halt is counted; a failed call leaves the watermark |
| `GnosisScanner.GnosisScanner.IngestWindow` | backend/src/gnosis/event-watcher.ts:203-249 | Ingesting in order, every block below the first failure is recorded |
| `GnosisScanner.GnosisScanner.RecordedBelow` | backend/src/gnosis/event-watcher.ts:200-208 | Why the sort matters: a recorded prefix of the ordered logs covers every lower block |
| `GnosisScanner.GnosisScanner.CreateWithdrawalOrder` | backend/src/gnosis/event-watcher.ts:267-355 | Inserts one row that says what the event says, with its transaction hash, its block and the sanitized destination, unless its id is there, and nothing on failure |
| `GnosisScanner.GnosisScanner.RecordScanHalt` | backend/src/gnosis/event-watcher.ts:453-488 | Counts up at the same block, starts at one at another |
| `GnosisScanner.GnosisScanner.Recount` | backend/src/gnosis/event-watcher.ts:92-127 | Everything below its own cursor is recorded whatever the watermark says, the cursor stays within watermark and safe tip, and a full pass covers all up to both |
| `GnosisScanner.SortLogs` | backend/src/gnosis/event-watcher.ts:203-208 | Same logs, ordered by block and log index |
| `BurnVerifier.Verify` | backend/src/gnosis/burn-verifier.ts:67-113 | Ok if and only if the receipt succeeded with exactly one controller log of this withdrawal, saying exactly the sender, amount and stored destination of the claim, deep enough; deferred exactly when the node is unreachable or that burn is too young; refused otherwise |
| `BurnVerifier.MatchTxHash` | backend/src/gnosis/burn-verifier.ts:67-72 | Matches exactly "0x" and 64 hexadecimal digits |
| `BurnVerifier.OneMatch` | backend/src/gnosis/burn-verifier.ts:89-102 | The matches array has one element exactly when one log matches, and then it is that log's event |
| `BurnVerifier.IngestedBurnIsProven` | backend/src/gnosis/burn-verifier.ts:67-113 | The row ingest stores leads to the receipt of the burn, is proven by it whatever the destination bytes, and its stored block tells how deep it is |
| `BurnVerifier.ProofNamesTheBurn` | backend/src/gnosis/burn-verifier.ts:103-106 | Two claims for one withdrawal proven by one receipt are the same payment |
| `BurnVerifier.ProvenDestination` | backend/src/gnosis/burn-verifier.ts:98-106 | A proven claim from a destination of at most 64 bytes pays the very bytes burned with |
| `Confirmations.MovesAreEarned` | watcher/src/deposits/confirmation-tracker.ts:48-91 | Every step of the route is an edge of the state machine of inbound.ts, FINALIZED exactly at its threshold and CONFIRMED only at its own, and looking again at the same count changes nothing |
| `DepositHandler.DepositHandler.HandleBlock` | watcher/src/deposits/block-handler.ts:96-440 | Without faults it is the composed function of the three passes. Whatever fails, an order first seen by it carries this block's height and, unless the node names another, its hash; CONFIRMED and FINALIZED need the node's count and the heights both to reach the threshold; and deposit ids stay distinct. Complete means that every output to a tracked address is recorded and no order an output was for still waits, and every wanted output is recorded if and only if no pending address that is not tracked is paid by a second output of the block |
| `DepositHandler.Live` | watcher/src/deposits/block-handler.ts:96-490 | Over any run from an empty table, with any blocks, forks, faults, answers and orders coming and going: an order stands CONFIRMED or FINALIZED only if its output was recorded from a block handled before, and some block handled since reached the threshold, counted in heights from that block, while the node counted as many; and no two orders have one deposit id |
| `DepositHandler.BlockIsExplained` | watcher/src/deposits/block-handler.ts:96-440 | One more block, faults or not, keeps that true of every order |
| `DepositHandler.PassesMean` | watcher/src/deposits/block-handler.ts:96-440 | What the three passes promise one by one, put together for a block, faults or not |
| `DepositHandler.DepositHandler.FirstSighting` | watcher/src/deposits/block-handler.ts:99-187 | Complete exactly if nothing failed and each output that found its order waiting could be recorded on it; then no order an output was for still waits. Only pending orders change, and those were just paid in this block, at its height and hash |
| `DepositHandler.DepositHandler.AutoIngest` | watcher/src/deposits/block-handler.ts:189-286 | Complete exactly if nothing failed, and then every output to a tracked address is recorded; existing orders are untouched, and every new one was just paid in this block, at its height and hash |
| `DepositHandler.EveryPaymentIff` | watcher/src/deposits/block-handler.ts:85-94 | For every block with distinct outputs whose claims are complete: all wanted outputs are recorded if and only if no pending address that is not tracked is paid by a second output not on record before |
| `DepositHandler.RecordedIff` | watcher/src/deposits/block-handler.ts:118-145 | One wanted output of a complete block is recorded exactly when its address is tracked, it is the first to its address, or it was on record before |
| `DepositHandler.SecondPaymentIsLost` | watcher/src/deposits/block-handler.ts:118-145 | With any order pending on an address that is not tracked, a transaction paying it twice leaves the block complete and the second output unrecorded |
| `DepositHandler.RecordedOnTwoOrders` | watcher/src/deposits/block-handler.ts:189-286 | A quote on an address also tracked for another recipient: when pass A's write fails and the block is handled again, one output is on two orders |
| `DepositHandler.DepositHandler.AdvanceOne` | watcher/src/deposits/block-handler.ts:302-437 | The branch the node's answer calls for, or no state change on a fault; no state machine assertion can fail |
| `DepositHandler.DepositHandler.HandleOrphan` | watcher/src/deposits/block-handler.ts:444-490 | Exactly the CONFIRMED deposits of the orphaned block go back to SEEN |
| `DepositHandler.AdvancedIsEarned` | watcher/src/deposits/block-handler.ts:302-437 | Forward exactly on a count that both the node and the heights reach, back from CONFIRMED exactly when the node says the transaction is not in the active chain, and as it was when it was not looked at; the row follows the node's block and count |
| `DepositHandler.RemineIsFollowed` | watcher/src/deposits/block-handler.ts:364-380 | A deposit mined again in another block goes back when that block is orphaned, and no longer when the first one is |
| `DepositHandler.AdvancedTwice` | watcher/src/deposits/block-handler.ts:288-437 | The advancement pass is idempotent for the same answers, re-mined deposits included |
| `DepositHandler.ReplayIsIdle` | watcher/src/deposits/block-handler.ts:85-94 | Handling a block again with the same answers changes nothing when pending addresses differ |
| `DepositHandler.SharedAddressReplays` | watcher/src/deposits/block-handler.ts:118-126 | With two orders pending on one address some block replayed is also recorded on the second |
| `DepositHandler.ReplayIsIdleIff` | watcher/src/deposits/block-handler.ts:85-94 | Replay is idle for every block, every node and every set of tracked addresses if and only if pending addresses differ |

## Left out

- A txid, and a block hash, stands for the content it hashes: collision freedom is assumed, and the node returning a txid other than the computed one is not modelled.
- One backend process: two pollers at once, concurrent signature submitters and confirm jobs inside a split decision of another instance are not modelled.
- A watcher appends signatures at any time, except between the cap reading and the receipts of one decision, where only the chain moves.
- The executor account's transactions are mined in the order they were sent; one below a mined one is never mined.
- Daily limit and MAX_SUPPLY are fixed, block times do not fall, and only the executor submits mints.
- Mint requests from before the split existed (`deposit_amount_sat` null) and attempts recorded without a txid are not modelled.
- Operators re-queue a withdrawal, set a refund's address, or reset a signed refund to signed; other hand edits of the tables are not modelled, except that the recount does not depend on the watermark.
- What a send that was not definitely refused does on the network is not modelled: it counts as possibly out. Which errors are definite or transient is chosen by the environment.
- Confirmation and block times of coins, gas drips, alerts, audit rows that nothing reads, HTTP routes, configuration and migrations are left out: I/O and display.
- The sender lookup of a refund and the announcement before it are an arbitrary answer and an arbitrary set of announced rows.
- PayoutExecutor.PayoutExecutor.NodeKnowsNone: searches the signatures of this order, where the source searches every order naming the withdrawal id; the id is unique, so in these tables they are the same signatures.
- The check that an earlier payout's inputs are unspent, and the burn check, are arbitrary answers inside the payout executor; the burn check itself is `BurnVerifier`.
- A park whose own write fails is not modelled: the order is parked at the first try.
- The node answers any tip at any call, and headers by hash never change; diffs after a live reorg are not claimed exact, because orphaned headers stay in the window.
- Blocks at and below the tips where a watcher without a cursor started are not covered, as its own warning says.
- Gnosis reorgs between two reads at the latest block are not modelled: a receipt, a supply or a nonce once read stays true.
- The recount runs on its own timer beside the scan; here they run one after the other.
- Logs deeper than the confirmation depth do not change, and a withdrawal id names one event. The chunk size is at least one; with zero the scan loop would not end.
- Another watcher changing an order between a read and its write, or inserting the same deposit between check and insert, is not modelled; the latter leaves the same row.
- The fee rate is a natural number of satoshis per byte; a fractional rate is not modelled.
- Hashes, ECDSA, EIP-712 hashing and HD derivation are uninterpreted or left out; recovery of a signer is an arbitrary function.
- Signing loop of the watcher, BridgeGuard, stuck-order alerts and the address cache are left out: they would only add easy members.
