# µRaiden, verified

A Dafny model of µRaiden, a protocol of one-way payment channels, with machine-checked proofs of what it promises. Four
parts are modelled, and the main theorems span them.

* **The escrow contract** (`Escrow.dfy`, `EscrowContract.dfy`, with the token in `Token.dfy`, the block-space validator in
  `Congestion.dfy`, and all of them on a chain in `Deployment.dfy`). Every external function is one step that commits or
  reverts, over the contract's four mappings, an EIP-20 ledger, the validator's cache, the mined chain and the event log.
  Integer widths and wrap-around are explicit.
* **The receiver's daemon** (`Store.dfy`, `Handlers.dfy`, `Manager.dfy`, `Windows.dfy`, `Watcher.dfy`, `Blockchain.dfy`):
  the two-table database, the event handlers, and the polling rounds with their two block windows.
* **The paywall and the payment session** (`Paywall.dfy`, `Session.dfy`, `Wallets.dfy`, `ClientObjects.dfy`,
  `ClientSync.dfy`).
* **The encodings** that tie them together (`Encoding.dfy`): packed messages and transfer payloads.

What the source updates in place is a class whose methods are proved against a specification function; the properties are
lemmas about those functions over whole runs. `Challenge.dfy`, `Settlement.dfy`, `Solvency.dfy`, `Commits.dfy`,
`Authority.dfy`, `Accounts.dfy`, `Conservation.dfy`, `Recreation.dfy` and `EscrowLogs.dfy` are about runs of the contract,
`RecordInvariants.dfy`, `Passes.dfy`, `Sync.dfy`, `SyncRuns.dfy`, `SyncClosing.dfy`, `SyncFailures.dfy`, `Announcements.dfy`
and `Recounting.dfy` about runs of the daemon, `Redeem.dfy`, `Closings.dfy` and `Disputes.dfy` about both together, and
`Income.dfy` about both with the paywall. `Prelude.dfy`, `Sums.dfy` and `EventLog.dfy` hold shared notions.

`dafny verify dfyconfig.toml` checks everything.

## Where the code falls short of a promise

Each of these is stated in the model by an exact condition, a concrete run, or both.

* **Unreadable signatures.** `addr_from_sig` (microraiden/utils/crypto.py:38-48) maps recovery bytes such as 37 to a signer;
  `ecverify` (contracts/contracts/lib/ECVerify.sol:5-36) reverts on them. `Handlers.UnreadableProof`: such a proof is accepted
  as a payment and cannot be cashed. A stored proof is redeemable if and only if its recovery byte is 0, 1, 27 or 28
  (`Handlers.RecoveryAgrees`, `Redeem.Redeemable`).
* **Requests that are too low.** `uncooperativeClose` accepts a balance below what was already withdrawn
  (`Settlement.LowRequestAccepted`), and no settle can then ever commit: the rest stays locked until both parties close
  cooperatively (`Settlement.LowRequestNeverSettles`).
* **Re-created keys.** Settlement does not clear withdrawals, so a key re-created in the block of its settlement starts with
  them (`Conservation.CreationInherits`). It takes a closing agreement signed in the creation block
  (`Recreation.ReuseNeedsAgreement`), which the daemon never gives (`Closings.AgreementsComeLater`). The receiver gets the
  final balance over a life if and only if nothing was on record at its creation (`Conservation.ConservedExactlyWhen`), and a
  proof below what is on record cannot be cashed (`Redeem.CashableExactlyWhen`). `Recreation.RecreatedKeyPaysLess` is a run
  in which a settlement at 6 leaves the receiver with 2.
* **Replacement during the first synchronisation.** Before it ends nothing resets the unconfirmed head
  (microraiden/channel_manager/blockchain.py:79). A replaced block that creates a channel is then never delivered, and the
  channel's top-up fails the handler's assertion: `SyncFailures.ReplacedDuringFirstSync`. In general a round fails an assertion
  if and only if it delivers an unconfirmed top-up of a channel it does not know (`Sync.RoundFollows`).
* **Forced closes without ether.** Lack of ether is caught for ordinary close requests but not for forced ones
  (microraiden/channel_manager/blockchain.py:249-271); such a round stops half-way: `SyncFailures.ForcedWithoutEther`. It
  happens if and only if, with no assertion failing before, a window asks to close a paid channel that the chain has forgotten
  and the receiver cannot pay for (`Sync.RoundFollows`); a run completes if and only if no round of it meets either case
  (`SyncRuns.RunCompletesExactlyWhen`).
* **A confirmed head that goes back.** If the node's height falls, the confirmed head can go back, exactly under the condition
  of `Windows.GoesBackExactlyWhen`. Some block is then delivered twice if and only if the head went back from past the start and
  rose again (`Windows.DeliveredTwiceExactlyWhen`). `SyncFailures.GoingBackCountsTwice`: a top-up is counted twice, and the
  record claims 20 where 15 were deposited. A deposit is right if and only if no round went back over a top-up
  (`Recounting.DepositRightExactlyWhen`).
* **Two closing agreements.** A dispute leaves the record open: the handler writes back the copy it read before closing
  (microraiden/channel_manager/manager.py:181-195). Payments go on, and a second agreement for a higher balance can be signed
  (`RecordInvariants.TwoAgreements`). All agreements of a record name one balance if and only if no payment is accepted between
  two of them (`RecordInvariants.OneBalanceExactlyWhen`). The disputing transaction stays good until the channel is
  settled (`Closings.ClosingTransactionCashes`); once it is mined, the balance it names is all the channel ever pays
  (`Closings.DisputedBalanceIsFinal`).
* **A closed record is deaf to top-ups.** A record that `sign_close` closed keeps the deposit of that moment
  (`SyncClosing.SignedDepositStays`).
* **A session without room.** A session whose next payment exceeds the deposit the server knows retries forever without
  access (`Session.NoRoomNoAccess`).
* `numBlocksUncongested` is declared `view` but writes the cache through its callee; the model does what the body does.

## Assumptions

Signatures are an arbitrary recovery function from message, signature bytes and recovery id to an address. Lemmas that need
channel keys or block hashes to be collision-free say so (`KeysDistinct`, `CollisionFree`); both hashes are arbitrary
functions to numbers, so that such functions exist. Of message hashes only the length is assumed, and a confusion is traced to
the collision it takes (`Encoding.MessageHashInjective`). Block numbers lie between 1 and 2^32 - 1 where accounts are
involved, since the contract stores 32 bits and uses zero for "absent". Each handler and each polling round is atomic, and
what a round reads from the node does not change while it runs. The answers of node, wallet and chain are parameters.

A log that the daemon or the client sees is one party's part of the contract's log, as `get_logs` filters it; what strangers
do is unrestricted (`Watcher.RoundSeesOwn`, `ClientSync.SyncFollowsChain`). Runs of the daemon (`SyncRuns.Admissible`) poll
logs in which no key of this receiver is used twice; by `EscrowLogs.LogIsValid` that is exactly what makes the receiver's part
of the contract's log valid, and by `Recreation.ReuseNeedsAgreement` it can fail only where the receiver signs a closing
agreement in a channel's creation block. Successive logs agree up to the confirmed head only: every unconfirmed block may be
replaced at any time, during the first synchronisation too. No round takes the confirmed head back, by the condition of
`Windows.GoesBackExactlyWhen`; heights may fall otherwise. In joint runs the blocks that a round takes for confirmed are final.
Theorems about the daemon's state hold of every state such a run reaches; that a run does reach its end is
`SyncRuns.RunCompletesExactlyWhen` and, for runs that are told of every replacement and can pay for forced closes,
`SyncRuns.KeptRunsComplete`.

## Model

| member | source | states |
|---|---|---|
| `Challenge.SettlementGuarantee` | contracts/contracts/RaidenMicroTransferChannels.sol:381-425 | In any run from deployment, a committed `settle` answers a close the sender committed earlier in that run for the same balance; the block number exceeds the close block plus the challenge period, and at least the required number of distinct real blocks mined from the close block on had the required free gas |
| `Challenge.CloseBlockExact` | contracts/contracts/RaidenMicroTransferChannels.sol:394-395 | A committed close stores close block plus challenge period without wrap-around, so subtracting the period in 32 bits gives back the close block at every height |
| `Challenge.StepAtKey` | contracts/contracts/RaidenMicroTransferChannels.sol:318-425 | One step leaves a pending request and its channel's deposit and withdrawals untouched or settles that key; a new request stems only from the sender's own close |
| `Challenge.RunKeepsRequests` | contracts/contracts/RaidenMicroTransferChannels.sol:381-425 | In every reachable state a pending request belongs to a live channel, asks for at most its deposit, and its period began at a block already reached |
| `Challenge.FrozenUntilSettled` | contracts/contracts/RaidenMicroTransferChannels.sol:318-425 | From a pending request on, deposit, withdrawals and request are unchanged after every action up to the first one that settles this key |
| `Challenge.RequestHasOrigin` | contracts/contracts/RaidenMicroTransferChannels.sol:381-398 | Every pending request was put there by a committed close exactly one challenge period before its settle block |
| `Challenge.RunKeepsCache` | contracts/contracts/congestion_validator/CongestionValidator.sol:80-112 | In every reachable state each cached header equals the real block of its number, and a cached header never changes |
| `Settlement.SettleCommitsExactlyWhen` | contracts/contracts/RaidenMicroTransferChannels.sol:407-425 | In every reachable state, between ordinary accounts, a settle commits if and only if a request is pending, its period is over, every header handed in can be judged, enough distinct real blocks since the close had room, and the request is not below what was withdrawn; receiver and sender then get exactly the requested balance less withdrawals and the rest of the deposit |
| `Settlement.SettleableExactlyWhen` | contracts/contracts/RaidenMicroTransferChannels.sol:407-425 | Some block reference makes the settle commit if and only if the period is over, the request is not too low, and among the blocks since the close that are cached or among the last 256 enough had room |
| `Settlement.LowRequestNeverSettles` | contracts/contracts/RaidenMicroTransferChannels.sol:381-425 | No settle for a close request below what was already withdrawn ever commits, whatever is handed in and whatever happens, until both parties close cooperatively; `LowRequestAccepted` shows that such a request is taken |
| `Congestion.CountExact` | contracts/contracts/congestion_validator/CongestionValidator.sol:39-112 | The returned count is the number of distinct real blocks among the entries, at or after the minimum, with enough free gas; the cache still agrees with the chain and keeps every old entry |
| `Congestion.ScanExact` | contracts/contracts/congestion_validator/CongestionValidator.sol:80-112 | A reference is accepted if and only if every entry is already cached or inside the 256-block window; the accepted numbers and the cache's growth are exactly those of the genuine entries |
| `Congestion.WindowExact` | contracts/contracts/congestion_validator/CongestionValidator.sol:118-125 | A header can be judged for the first time exactly in the 255 blocks after its own, while its real hash is still available |
| `Congestion.CountDependsOnEntriesOnly` | contracts/contracts/congestion_validator/CongestionValidator.sol:39-112 | Order, repetition and cache hits do not change the count; with equally filled caches two such references also revert alike |
| `Congestion.CongestionValidator.ValidateRLPHeaders` | contracts/contracts/congestion_validator/CongestionValidator.sol:80-112 | The loop accepts, caches and reverts as the scan specification says; a revert undoes its cache writes |
| `Congestion.CongestionValidator.NumBlocksUncongested` | contracts/contracts/congestion_validator/CongestionValidator.sol:39-75 | Count and new cache are those of the counting specification, for which the count is proved exact; the body writes the cache although it is declared `view` |
| `Congestion.CongestionValidator.BlockHeaderIsValid` | contracts/contracts/congestion_validator/CongestionValidator.sol:118-125 | Reverts outside the last 256 blocks and otherwise compares with the chain's block hash |
| `Congestion.RemoveDuplicates` | contracts/contracts/congestion_validator/lib/ArrayUint.sol:17-28 | The result holds the same values, each once |
| `Congestion.Contains` | contracts/contracts/congestion_validator/lib/ArrayUint.sol:35-44 | The index of the first occurrence, and -1 if and only if there is none |
| `Congestion.Append` | contracts/contracts/congestion_validator/lib/ArrayUint.sol:50-61 | A new array with the value at its end |
| `Solvency.Solvent` | contracts/contracts/RaidenMicroTransferChannels.sol:214-425 | In every reachable state, over any interleaving of senders, receivers, delegates, token holders and reporters, the contract's tokens cover the sum over all channels of deposit less withdrawals, floored at zero |
| `Solvency.StepKeepsFunded` | contracts/contracts/RaidenMicroTransferChannels.sol:174-425 | Every single step, committed or reverted, keeps that coverage, keeps anybody from spending for the contract, and conserves the supply bound |
| `Solvency.SettlementCovered` | contracts/contracts/RaidenMicroTransferChannels.sol:653-687 | In a covered state a settlement commits exactly when the channel exists and withdrawals <= balance <= deposit; receiver and sender then get exactly balance less withdrawals and deposit less balance |
| `Solvency.WithdrawalCovered` | contracts/contracts/RaidenMicroTransferChannels.sol:302-336 | In a covered state a withdrawal commits exactly under the contract's own conditions, never failing for want of tokens, and pays exactly the increase |
| `Solvency.TopUpStoresTrueSum` | contracts/contracts/RaidenMicroTransferChannels.sol:632-642 | For all uint192 inputs a committed top-up stores the mathematical sum, at most the limit, and one that reverts had a failing precondition or a true sum above the limit |
| `Solvency.DepositsLimited` | contracts/contracts/RaidenMicroTransferChannels.sol:597-649 | In every reachable state every stored deposit is at most the limit, however the channel was opened and topped up |
| `Commits.OpeningExactlyWhen` | contracts/contracts/RaidenMicroTransferChannels.sol:214-245 | createChannel commits if and only if the deposit is within the limit, the slot is free, and the caller has the tokens and lets the contract take them; createChannelDelegate only for a trusted caller, who pays |
| `Commits.RaisingExactlyWhen` | contracts/contracts/RaidenMicroTransferChannels.sol:247-300 | topUp commits if and only if something is added, the channel exists, nobody has asked to close it, the true sum is within the limit, and the caller can pay; topUpDelegate only for a trusted caller |
| `Commits.TransferExactly` | contracts/contracts/RaidenMicroTransferChannels.sol:174-208 | A token transfer with data commits if and only if the caller has the tokens, the amount fits 192 bits, the payload decodes, the caller is the sender it names or trusted, and that opening or top-up is possible |
| `Commits.AskingExactlyWhen` | contracts/contracts/RaidenMicroTransferChannels.sol:381-398 | uncooperativeClose commits if and only if the channel exists, nobody has asked before, the balance is within the deposit, and the end of the challenge period fits 32 bits |
| `Commits.ClosingExactlyWhen` | contracts/contracts/RaidenMicroTransferChannels.sol:346-373 | cooperativeClose commits if and only if both parties signed one balance between the withdrawals and the deposit of an existing channel, be a request pending or not |
| `Commits.LiveDecides` | contracts/contracts/RaidenMicroTransferChannels.sol:597-649 | In reachable states a channel can be opened if and only if it is not live, and raised if and only if it is live and unasked |
| `Token.TransferMoves` | contracts/contracts/test/StandardToken.sol:23-35 | A transfer moves exactly the value, touches no third account, and conserves the supply |
| `Token.TransferSucceeds` | contracts/contracts/test/StandardToken.sol:23-35 | With an ordinary recipient and a supply that fits a word, funds alone decide whether a transfer succeeds |
| `Token.TransferExactlyWhen` | contracts/contracts/test/StandardToken.sol:23-35 | A transfer goes through if and only if the recipient is neither zero nor the token and the payer has the value; to oneself, balance plus value must fit a word too |
| `Token.SpendingExact` | contracts/contracts/test/StandardToken.sol:75-93 | Spending for another goes through if and only if the allowance covers it and the transfer does; it lowers that allowance by the value and no other |
| `Token.ApprovalExact` | contracts/contracts/test/StandardToken.sol:100-112 | An approval fails if and only if the spender is zero or a positive allowance would be replaced by a positive one; it sets that allowance alone and moves nothing |
| `Token.StandardToken.Transfer` | contracts/contracts/test/StandardToken.sol:23-35 | The object's new ledger is the ledger specification's, or a revert leaves it as it was |
| `Token.StandardToken.TransferFrom` | contracts/contracts/test/StandardToken.sol:75-93 | The new ledger and allowance are the specification's, or a revert leaves both as they were |
| `Token.StandardToken.Approve` | contracts/contracts/test/StandardToken.sol:100-112 | Sets the allowance unless both it and the new value are positive; a revert leaves it as it was |
| `Conservation.LifeConserved` | contracts/contracts/RaidenMicroTransferChannels.sol:302-425 | In every life of a key, when a channel is settled, the withdrawals and the settlement of this life together have paid the receiver exactly the final balance less the withdrawals on record at creation, and the sender gets everything deposited in this life less that balance |
| `Conservation.ConservedExactlyWhen` | contracts/contracts/RaidenMicroTransferChannels.sol:653-687 | The receiver is paid exactly the final balance over a life if and only if no withdrawals were on record when the channel was created; in particular in the first life of a key |
| `Accounts.RunAgrees` | contracts/contracts/RaidenMicroTransferChannels.sol:174-425 | In every reachable state the account folded from a channel's events, re-created keys included, matches the contract's storage; in particular no impossible order of events is ever logged |
| `Conservation.AccountIsSums` | contracts/contracts/RaidenMicroTransferChannels.sol:302-425 | The account of a channel equals, life by life, the plain sums of its creation, top-up, withdrawal and settlement events, and counts its lives |
| `Conservation.SettledAtMostOnce` | contracts/contracts/RaidenMicroTransferChannels.sol:653-687 | A channel settles at most once per creation, and over all its lives its receiver is never paid more than was deposited |
| `Conservation.IncomeAuthorised` | contracts/contracts/RaidenMicroTransferChannels.sol:302-425 | Whatever the receiver has been paid in the current life of a channel brings it to a balance that some committed action of the run carried the sender's signature for, or the sender's own committed close |
| `Conservation.CreationInherits` | contracts/contracts/RaidenMicroTransferChannels.sol:597-617 | A created channel starts with whatever withdrawals the contract still has on record for its key, a number anybody can read beforehand |
| `Recreation.ReuseNeedsAgreement` | contracts/contracts/RaidenMicroTransferChannels.sol:346-425 | In any run a key is opened a second time only if a committed cooperative close with both parties' signatures settled its channel in the very block it was opened in |
| `Recreation.RecreatedKeyPaysLess` | contracts/contracts/RaidenMicroTransferChannels.sol:653-687 | From any deployment: a channel opened, paid 4 and settled, then opened again in the same block and settled at 6, pays the receiver 2 in its second life |
| `EscrowLogs.LogIsValid` | contracts/contracts/RaidenMicroTransferChannels.sol:89-114 | What the contract logs about one receiver's, or one sender's, channels is ordered by block, with every channel's events in a possible order and after its creation, if and only if none of that party's keys was created twice, whatever others do |
| `EscrowContract.RaidenMicroTransferChannels.CreateChannelPrivate` | contracts/contracts/RaidenMicroTransferChannels.sol:597-617 | Stores the new channel under the key of sender, receiver and current block and logs it, or reverts with nothing changed, exactly when the limit is exceeded or the key is in use |
| `EscrowContract.RaidenMicroTransferChannels.UpdateInternalBalanceStructs` | contracts/contracts/RaidenMicroTransferChannels.sol:625-644 | Stores the wrapped sum and logs the top-up, or reverts with nothing changed under the conditions of the code, assertion included; `Solvency.TopUpStoresTrueSum` shows the stored sum is the true one |
| `EscrowContract.RaidenMicroTransferChannels.CreateChannel` | contracts/contracts/RaidenMicroTransferChannels.sol:214-220 | A channel and its deposit come together: the deposit is pulled from the caller, or every change is undone |
| `EscrowContract.RaidenMicroTransferChannels.CreateChannelDelegate` | contracts/contracts/RaidenMicroTransferChannels.sol:228-240 | The same for another sender, for trusted callers only, who pay |
| `EscrowContract.RaidenMicroTransferChannels.TopUp` | contracts/contracts/RaidenMicroTransferChannels.sol:247-264 | The raised deposit and the tokens come together, or every change is undone |
| `EscrowContract.RaidenMicroTransferChannels.TopUpDelegate` | contracts/contracts/RaidenMicroTransferChannels.sol:273-292 | The same for another sender, for trusted callers only, who pay |
| `EscrowContract.RaidenMicroTransferChannels.TokenFallback` | contracts/contracts/RaidenMicroTransferChannels.sol:174-208 | Creates or tops up what the payload names, or reverts with nothing changed unless the amount fits 192 bits, the payload has 40 or 44 bytes, and the channel's sender or a trusted contract sent the tokens |
| `EscrowContract.RaidenMicroTransferChannels.Withdraw` | contracts/contracts/RaidenMicroTransferChannels.sol:302-336 | Pays the increase over what was withdrawn and records it, or reverts with nothing changed; `Solvency.WithdrawalCovered` gives the exact condition, `Conservation.LifeConserved` the total |
| `EscrowContract.RaidenMicroTransferChannels.SettleChannel` | contracts/contracts/RaidenMicroTransferChannels.sol:653-687 | Deletes channel and request, makes both transfers and logs the settlement, or ends with nothing changed; `Solvency.SettlementCovered` gives the exact condition and amounts |
| `EscrowContract.RaidenMicroTransferChannels.CooperativeClose` | contracts/contracts/RaidenMicroTransferChannels.sol:346-373 | Settles at the signed balance if the sender signed it and the receiver signed the closing agreement, and reverts with nothing changed otherwise |
| `EscrowContract.RaidenMicroTransferChannels.UncooperativeClose` | contracts/contracts/RaidenMicroTransferChannels.sol:381-398 | Records the request and its settle block once per channel, within the deposit, or reverts with nothing changed; `Challenge.CloseBlockExact` shows the block is exact |
| `EscrowContract.RaidenMicroTransferChannels.Settle` | contracts/contracts/RaidenMicroTransferChannels.sol:407-425 | Settles at the requested balance after the challenge period and with enough attested blocks; a revert leaves nothing changed, the validator's cache writes included |
| `EscrowContract.RaidenMicroTransferChannels.AddTrustedContracts` | contracts/contracts/RaidenMicroTransferChannels.sol:461-468 | The owner adds exactly those listed addresses that hold code, with one TrustedContract event for each |
| `EscrowContract.RaidenMicroTransferChannels.RemoveTrustedContracts` | contracts/contracts/RaidenMicroTransferChannels.sol:473-480 | The owner removes exactly the listed addresses, with one TrustedContract event for each that was trusted |
| `EscrowLogs.NoticesTellTrusted` | contracts/contracts/RaidenMicroTransferChannels.sol:114-117 | In every reachable state the TrustedContract events tell exactly which contracts are trusted |
| `EscrowLogs.NoticesStamped` | contracts/contracts/RaidenMicroTransferChannels.sol:461-480 | A step only adds notices, each with the number of its block |
| `Deployments.Deployment.constructor` | contracts/contracts/RaidenMicroTransferChannels.sol:138-163 | Token, validator and escrow put together are an initial state of the transition system that trusts exactly the listed addresses that hold code |
| `Deployments.Deployment.Deploy` | contracts/contracts/RaidenMicroTransferChannels.sol:138-163 | Deployment succeeds if and only if token and validator address are not zero and hold code, the supply is positive and the challenge period is at least 5 blocks |
| `Deployments.Deployment.TransferWithData` | contracts/contracts/RaidenMicroTransferChannels.sol:174-208 | The token transfer that calls the escrow back: both happen, or neither |
| `Deployments.Deployment.Transact` | contracts/contracts/RaidenMicroTransferChannels.sol:174-480 | Whatever anybody sends to the objects, their state becomes that of the transition system's step |
| `Deployments.Deployment.TransactAll` | contracts/contracts/RaidenMicroTransferChannels.sol:174-480 | A whole run takes the objects where the transition system goes; from a fresh deployment the escrow ends covered |
| `Authority.DepositAuthorised` | contracts/contracts/RaidenMicroTransferChannels.sol:174-300 | Over every run from deployment every deposit in a sender's name was paid, to the last token, by the sender itself or by a contract that the notices before it show as trusted, because the owner had added it, or the deployment named it, and had not removed it since |
| `Authority.TrustedExactlyWhen` | contracts/contracts/RaidenMicroTransferChannels.sol:461-480 | Before any action of any run exactly those contracts are trusted that the owner added, or the deployment named, and has not removed since; nobody else changes the set |
| `Encoding.PythonPacksLikeSolidity` | microraiden/utils/crypto.py:51-87 | For in-range fields the Python packing of a signed message is byte for byte the contract's tight packing |
| `Encoding.Pack` | microraiden/utils/crypto.py:51-87 | The loop computes the packing specification, including the exception on an odd number of hexadecimal digits |
| `Encoding.FormatIntExact` | microraiden/utils/crypto.py:60-74 | Whatever is packed for an integer reads back as its value, or its two's complement for a negative one, and takes at least the given width if not negative; it fails if and only if the number of hexadecimal digits is odd or a negative value is beyond the width |
| `Encoding.DefaultWidths` | microraiden/utils/crypto.py:75-87 | Truth values take one byte, integers of no given width thirty-two |
| `Encoding.PackedInjective` | contracts/contracts/RaidenMicroTransferChannels.sol:513-519 | Under one label the packed bytes determine address, block, balance and contract |
| `Encoding.PackedDetermines` | contracts/contracts/RaidenMicroTransferChannels.sol:513-555 | The packed bytes determine the kind of message too: a balance proof and a closing agreement are never the same bytes, whatever their fields |
| `Encoding.PythonHashesLikeContract` | microraiden/utils/crypto.py:138-204 | For all fields and either kind, the typed-data hash that Python signs and recovers is the one the contract recovers, schema included |
| `Encoding.MessageHashInjective` | microraiden/utils/crypto.py:138-204 | For any hash with 32-byte results, two signed messages have one hash if and only if they are of one kind with equal fields, or one of two named pairs of strings is a collision: of the strings hashed last, or, where the schemas have one hash, of the packed values. So to replay a proof for another channel, balance or contract, or as a closing agreement, takes a collision of the hash |
| `Encoding.PayloadRoundTrip` | contracts/contracts/RaidenMicroTransferChannels.sol:174-208 | The bytes that open_channel and topup attach decode to the same sender, receiver and block |
| `Encoding.AcceptedPayloadIsCanonical` | contracts/contracts/RaidenMicroTransferChannels.sol:697-715 | Conversely every accepted payload is the client's encoding of what was read from it |
| `Handlers.RecoveryAgrees` | microraiden/utils/crypto.py:38-48 | Given that the server recovers a signer, the contract recovers the same one if and only if the recovery byte is 0, 1, 27 or 28; the server also reads others |
| `Handlers.ServerReads` | microraiden/utils/crypto.py:38-48 | The server reads exactly the recovery bytes 0 to 3, 27 to 30 and from 35 on, the last by parity |
| `Handlers.UnreadableProof` | microraiden/utils/crypto.py:38-48 | Any payment the server accepts with recovery byte 27 or 28 it accepts with 37 or 38 too, and the contract then refuses to cash it |
| `Store.ReplaceRefinesUpdate` | microraiden/channel_manager/state.py:330-356 | INSERT OR REPLACE under any unused row id, then rewriting the top-ups of that row id, changes exactly one entry of the abstract map; no orphaned top-up becomes visible |
| `Store.DeleteRefinesRemove` | microraiden/channel_manager/state.py:370-397 | Deleting channel rows removes exactly those entries, and the top-ups they leave behind stay invisible |
| `Store.ChannelManagerState.AddChannel` | microraiden/channel_manager/state.py:337-357 | The abstract map is updated at the channel and nowhere else |
| `Store.ChannelManagerState.GetChannels` | microraiden/channel_manager/state.py:249-262 | Exactly the stored channels with the given confirmation status, with their top-ups |
| `Store.ChannelManagerState.GetPending` | microraiden/channel_manager/state.py:273-282 | Exactly the keys of channels whose closing could not be paid for |
| `Store.ChannelManagerState.GetChannel` | microraiden/channel_manager/state.py:359-368 | The stored channel, or nothing where the original fails on an empty result |
| `Store.ChannelManagerState.DelChannel` | microraiden/channel_manager/state.py:370-375 | Removes exactly that channel, and reports the failing assertion when it does not exist |
| `Store.ChannelManagerState.DelUnconfirmedChannels` | microraiden/channel_manager/state.py:395-397 | Removes exactly the unconfirmed channels |
| `Store.ChannelManagerState.GetUnconfirmedTopups` | microraiden/channel_manager/state.py:309-312 | Exactly the rows of one row id, as a map |
| `Store.ChannelManagerState.SetUnconfirmedTopups` | microraiden/channel_manager/state.py:330-335 | The rows of that row id become the given ones; every other row stays |
| `Store.ChannelManagerState.UpdateSyncState` | microraiden/channel_manager/state.py:207-227 | Sets exactly the columns for which a value is given |
| `RecordInvariants.RunKeepsRecords` | microraiden/channel_manager/manager.py:135-418 | Over every interleaving of handlers, payments, closings and resets: balance <= deposit; no signature exactly when the balance is zero; otherwise the signature is the sender's on this balance; unconfirmed channels are open and unpaid; a pending closing has its proof |
| `RecordInvariants.DisputeHasProof` | microraiden/channel_manager/manager.py:162-262 | A close request below the stored balance is disputed with the stored balance and the sender's signature on it, never failing for a missing proof; the record ends as it was, because the copy read first is written back |
| `RecordInvariants.PendingExactlyWhen` | microraiden/channel_manager/manager.py:244-294 | Over every run exactly those channels are pending, with their proof, whose closing failed for lack of ether and has since been neither retried nor forced, conceded or settled: no closing that could not be paid for is forgotten |
| `RecordInvariants.CreationLaws` | microraiden/channel_manager/manager.py:135-160 | A creation counts once: repeating an event changes nothing, and the unconfirmed one leaves no trace beside the confirmed one, in either order |
| `RecordInvariants.TopUpLaws` | microraiden/channel_manager/manager.py:204-240 | An announced top-up is shown beside the deposit; confirming it moves it into the deposit exactly as if it had not been announced; a closed channel ignores the confirmation |
| `RecordInvariants.ResetLaws` | microraiden/channel_manager/manager.py:411-419 | A reset undoes unconfirmed creations and announced top-ups, keeps every confirmed record, and a second one changes nothing |
| `Announcements.RoundShows` | microraiden/channel_manager/blockchain.py:189-226 | After a completed round a confirmed channel shows exactly the announced top-ups it showed before and those of the unconfirmed window, with the amounts named, less those of the confirmed window unless it was closed |
| `RecordInvariants.PaymentOutcome` | microraiden/channel_manager/manager.py:352-409 | A payment is taken if and only if the channel is confirmed and open, the sender signed it and it raises the balance within the deposit; the increase is reported; every refusal means exactly one reason |
| `RecordInvariants.SignCloseOutcome` | microraiden/channel_manager/manager.py:307-337 | sign_close agrees if and only if the balance is the stored one of a confirmed open channel with a proof; every refusal means exactly one reason |
| `RecordInvariants.ClosedStaysClosed` | microraiden/channel_manager/manager.py:162-337 | Until it is deleted a closed record stays closed with the same balance, signature and deposit |
| `RecordInvariants.AgreementsDifferExactlyWhen` | microraiden/channel_manager/manager.py:162-337 | Two closing agreements the manager hands out for one record, by sign_close or in any closing transaction, differ if and only if a payment was accepted between them; the first then went out with a dispute, and is for the lower balance |
| `RecordInvariants.OneBalanceExactlyWhen` | microraiden/channel_manager/manager.py:162-409 | All agreements of a record name one balance if and only if no payment is accepted between two of them |
| `RecordInvariants.TwoAgreements` | microraiden/channel_manager/manager.py:181-195 | A run with two agreements: a dispute for 10 leaves the record open, a payment raises it to 20, and sign_close agrees to 20 |
| `RecordInvariants.OneSignedClose` | microraiden/channel_manager/manager.py:307-383 | sign_close succeeds at most once per record; after it the record is closed with exactly that balance, takes no payment, and any later agreement is for the same balance |
| `Manager.ChannelManager.SetHead` | microraiden/channel_manager/manager.py:119-131 | Heads are stored exactly when 0 < confirmed < unconfirmed; otherwise nothing changes |
| `Manager.ChannelManager.EventChannelOpened` | microraiden/channel_manager/manager.py:135-144 | Afterwards the channel is confirmed with the event's deposit if it was not confirmed before; a confirmed record and all others are untouched |
| `Manager.ChannelManager.UnconfirmedEventChannelOpened` | microraiden/channel_manager/manager.py:146-160 | Afterwards the channel is known; a known channel and all others are untouched |
| `Manager.ChannelManager.EventChannelCloseRequested` | microraiden/channel_manager/manager.py:162-195 | A balance below the stored one is disputed with a closing transaction, any other closes the record with the settle block; new map, transactions sent and failure raised are fixed in every case |
| `Manager.ChannelManager.EventChannelSettled` | microraiden/channel_manager/manager.py:197-202 | Exactly this channel is forgotten; an unknown one is the failing assertion and changes nothing |
| `Manager.ChannelManager.UnconfirmedEventChannelTopup` | microraiden/channel_manager/manager.py:204-220 | A confirmed channel gains this unconfirmed top-up, an unconfirmed one ignores it, an unknown one is the failing assertion |
| `Manager.ChannelManager.EventChannelTopup` | microraiden/channel_manager/manager.py:222-240 | An open confirmed channel gains the deposit and loses the unconfirmed entry, a closed one ignores it, any other is the failing assertion |
| `Manager.ChannelManager.CloseChannel` | microraiden/channel_manager/manager.py:244-294 | With ether one transaction goes out for the stored balance with the stored proof and the manager's own closing signature, and the record is closed; without, the record is marked as pending; without a proof nothing happens but the failure |
| `Manager.ChannelManager.ForceCloseChannel` | microraiden/channel_manager/manager.py:296-305 | As closing, but a record without a proof is closed locally and raises nothing |
| `Manager.ChannelManager.SignClose` | microraiden/channel_manager/manager.py:307-337 | Succeeds exactly for a confirmed open record with a proof and the stored balance; then the record is closed and the result is the manager's signature on sender, block and that balance |
| `Manager.ChannelManager.VerifyBalanceProof` | microraiden/channel_manager/manager.py:352-383 | Returns the record exactly when the channel is confirmed and open and the sender signed; otherwise the failure, in the original's order |
| `Manager.ChannelManager.RegisterPayment` | microraiden/channel_manager/manager.py:385-409 | Stores balance and signature exactly for a valid, growing balance within the deposit, and reports the increase |
| `Manager.ChannelManager.ResetUnconfirmed` | microraiden/channel_manager/manager.py:411-418 | Leaves the confirmed records without top-ups and moves the unconfirmed head back to the confirmed one |
| `Manager.ChannelManager.ClosePendingChannels` | microraiden/channel_manager/manager.py:486-491 | Completes if and only if every pending confirmed channel has its proof and can be paid for; one that raises half-way has sent and closed exactly the channels before, and left all others as they were |
| `Windows.NoGap` | microraiden/channel_manager/blockchain.py:101-136 | Whatever the heights do, every block from the start up to the confirmed head was delivered as confirmed by some round |
| `Windows.DeliveredOnce` | microraiden/channel_manager/blockchain.py:75-136 | With a non-falling height that starts at least the confirmation depth above the start, and chunks at least that long, no block is delivered as confirmed twice, hash-mismatch resets included |
| `Windows.RegularRun` | microraiden/channel_manager/blockchain.py:75-136 | In such a run every round completes, set_head's assertions included, and the confirmed head never goes back |
| `Windows.CatchesUp` | microraiden/channel_manager/blockchain.py:101-136 | At a steady height the unconfirmed head is after n rounds exactly n chunks on, or at the height, the confirmed one exactly the confirmation depth behind, and the daemon counts as synchronised once it is there |
| `Windows.SyncedExactlyWhen` | microraiden/channel_manager/blockchain.py:126-136 | The daemon counts as synchronised if and only if some round delivered blocks up to the node's height |
| `SyncRuns.RunAdvances` | microraiden/channel_manager/blockchain.py:75-291 | The heads of a whole run of the daemon, payments and closings between rounds included, are those its views of the node give; so the theorems about windows hold of every run |
| `Windows.GoesBackExactlyWhen` | microraiden/channel_manager/blockchain.py:101-136 | A completed round lowers the confirmed head if and only if it moves the unconfirmed head on, past the confirmation depth, but to less than that depth after the confirmed head |
| `Windows.DeliveredTwiceExactlyWhen` | microraiden/channel_manager/blockchain.py:75-136 | Whatever the heights do, some block is delivered as confirmed by two rounds of a completed run if and only if the confirmed head once went back from past the start and later rose again |
| `Windows.FallingHeightRedelivers` | microraiden/channel_manager/blockchain.py:79-107 | A run whose height falls by two and in which a confirmed block is delivered twice |
| `Sync.RoundFollows` | microraiden/channel_manager/blockchain.py:138-291 | A round over the receiver's events, none of whose keys is used twice, fails an assertion if and only if it delivers an unconfirmed top-up of a channel it does not know, lacks ether if and only if otherwise it must force a paid channel closed that it cannot pay for, and else brings every record in line with the log up to the new head |
| `Watcher.RoundSeesOwn` | microraiden/channel_manager/blockchain.py:114-136 | A round over the whole contract log does what it does over the events of this receiver's channels alone |
| `SyncRuns.RunKeepsStep` | microraiden/channel_manager/blockchain.py:75-291 | Every state that a run of polls, payments and closings reaches is in line with the log up to the confirmed head, whatever unconfirmed blocks were replaced, during the first synchronisation too, and whatever the chunks; no round may take the confirmed head back |
| `SyncRuns.RunCompletesExactlyWhen` | microraiden/channel_manager/blockchain.py:75-291 | Such a run completes if and only if no round of it delivers an unconfirmed top-up of an unknown channel or must force a close it cannot pay for |
| `SyncRuns.KeptRunsComplete` | microraiden/channel_manager/blockchain.py:78-99 | Every run whose unconfirmed blocks stay, or whose node, once synchronised, no longer knows the head hash or has fallen below the head when they do not, completes if forced closes can be paid for; the store then holds exactly the channels created up to the unconfirmed head of the log last seen and not settled up to the confirmed one, so nothing of a replaced block survives |
| `SyncFailures.ReplacedDuringFirstSync` | microraiden/channel_manager/blockchain.py:78-79 | A run that replaces a block before the first synchronisation ends, and stops on a failed assertion |
| `SyncFailures.ForcedWithoutEther` | microraiden/channel_manager/blockchain.py:249-261 | A run that stops because a forced close cannot be paid for |
| `SyncFailures.GoingBackCountsTwice` | microraiden/channel_manager/blockchain.py:101-136 | A run in which the height falls by two and a record ends with deposit 20 where the log has 15 |
| `Recounting.DepositRightExactlyWhen` | microraiden/channel_manager/blockchain.py:101-136 | In runs whose rounds may go back, an open record of an unsettled channel exceeds the log's deposit by exactly the top-ups in the blocks that rounds took the confirmed head back over; so it is right if and only if there are none |
| `SyncRuns.ReplayExact` | microraiden/channel_manager/manager.py:135-240 | Delivering the log event by event fails no assertion and gives exactly the live channels, deposits and closed flags the log says |
| `SyncClosing.ChunkingDoesNotMatter` | microraiden/channel_manager/blockchain.py:138-271 | After any run, however its chunks were cut, the confirmed channels are those of the chronological replay up to the confirmed head, with its deposit or, once signed off, that of the replay up to the head of that moment; a record is closed exactly if it was signed off or its request was conceded, and an unpaid one exactly if the replay's is |
| `SyncClosing.ClosedExactlyWhen` | microraiden/channel_manager/manager.py:162-337 | Paid or not, a confirmed record is closed if and only if sign_close succeeded for it or a round delivered its close request without a paid-for dispute; unless it was signed off, its deposit is what the log says |
| `SyncClosing.SignedDepositStays` | microraiden/channel_manager/manager.py:222-240 | A record that was signed off keeps the deposit the log said at that moment for as long as it exists |
| `SyncClosing.SettleBlockExact` | microraiden/channel_manager/manager.py:162-195 | In every state a run reaches, a record carries the settle block of the last close request that a round delivered for it at no less than its balance, and none before |
| `SyncRuns.ChunkIndependence` | microraiden/channel_manager/blockchain.py:138-271 | Two payment-free runs with different chunk sizes and depths that reached the same confirmed head hold the same channels, deposits and closed flags |
| `BlockchainWatcher.Blockchain.Update` | microraiden/channel_manager/blockchain.py:75-291 | One round of the object is one poll of the run model: it completes exactly when that does, with the same heads and records, and sends exactly its closing transactions; an unknown confirmed head is the failing assertion; the hashes it keeps are those of the two new heads |
| `BlockchainWatcher.Blockchain.ResetIfReplaced` | microraiden/channel_manager/blockchain.py:78-99 | Resets exactly when the height fell below the unconfirmed head or its hash is unknown |
| `BlockchainWatcher.Blockchain.DeliverAll` | microraiden/channel_manager/blockchain.py:138-271 | One loop over one kind of event delivers the pass of the specification, sends its closing transactions, and stops at the first handler that raises |
| `BlockchainWatcher.Blockchain.DeliverEvents` | microraiden/channel_manager/blockchain.py:138-271 | The six loops, in the original's order |
| `BlockchainWatcher.Blockchain.HandleCloseRequest` | microraiden/channel_manager/blockchain.py:241-271 | Unknown channels are skipped, vanished ones are forced closed, lack of ether is caught only in the other case, and exactly the specified closing transaction goes out |
| `Redeem.Redeemable` | contracts/contracts/RaidenMicroTransferChannels.sol:346-373 | In every state that any joint run reaches, for every stored proof of a channel not yet settled on chain, close request pending or not, and every closing signature of the receiver for its balance: cooperativeClose commits only if the recovery byte is one the contract reads, and between two ordinary accounts that suffices; it then pays the receiver exactly the stored balance less what was withdrawn, and the sender all deposits less the balance. Unconfirmed blocks may be replaced at any time and strangers may do whatever they like; rounds do not take the confirmed head back, and the logs they see use none of this receiver's keys twice |
| `Redeem.PresentableCashesIn` | microraiden/channel_manager/manager.py:385-409 | The same in any state that satisfies the joint invariant: the stored balance is covered by the deposit on chain and not below the withdrawals, so the settlement cannot fail |
| `Redeem.JointRun` | microraiden/channel_manager/manager.py:135-409 | Every state that an admissible joint run reaches satisfies the joint invariant: solvency, accounts that match storage, records in line with the canonical log, and withdrawals within the stored balance of a channel |
| `Redeem.TakeExact` | microraiden/channel_manager/manager.py:135-409 | A step of a joint run completes if and only if it is no round that meets an unknown channel's top-up or a forced close without ether; then the joint invariant is kept |
| `Redeem.CashableExactlyWhen` | contracts/contracts/RaidenMicroTransferChannels.sol:346-373 | For a live channel in any of its lives and a proof the server accepts, within the deposit: presented with the receiver's agreement it commits if and only if the contract reads its recovery byte and the withdrawals on record, inherited ones included, do not exceed it |
| `Closings.ClosingTransactionCashes` | microraiden/channel_manager/manager.py:162-294 | Every closing transaction that any step of a joint run sends, disputes inside a round and retried pending closings included, commits in every later state of the run in which the channel is unsettled, if and only if the contract reads its recovery byte; it then pays its balance less what was withdrawn |
| `Closings.SentStaysGood` | microraiden/channel_manager/blockchain.py:241-271 | The same after any run of the chain, for transactions of rounds that raise half-way too |
| `Closings.AgreementsVerify` | microraiden/channel_manager/manager.py:307-337 | Every agreement the manager hands out, by sign_close or in a closing transaction, is one the contract reads as the receiver's on exactly the stored balance of that channel |
| `Closings.SignedCloseCashes` | microraiden/channel_manager/manager.py:307-337 | In every later state of a joint run in which the channel is unsettled, cooperativeClose with the stored proof and the agreement that sign_close returned commits if and only if the proof's recovery byte is readable, and pays the agreed balance less what was withdrawn |
| `Disputes.RequestAnswered` | microraiden/channel_manager/manager.py:162-195 | In every completed round of a run, each delivered close request below the stored balance, or for a paid channel that the chain has forgotten, is answered with a transaction for the stored balance: it goes out if there is ether and is kept pending otherwise |
| `Disputes.CheatingIsAnswered` | microraiden/channel_manager/manager.py:162-195 | If a round of a joint run delivers a close request that is too low and there is ether, then in every later state of the run in which the channel is unsettled the answer commits if and only if the proof is readable, and pays the balance that was stored, less withdrawals |
| `Closings.AgreementsComeLater` | microraiden/channel_manager/manager.py:307-337 | Whatever the daemon can agree to close was opened in an earlier block, so its own agreements never let a key be opened again |
| `Closings.DisputedBalanceIsFinal` | microraiden/channel_manager/manager.py:181-195 | Once a closing transaction for some balance is mined, then in every later state, as long as the key is not opened again, the channel has paid exactly that balance and no proof of it can be cashed or withdrawn on; so the balance of a record left open by a dispute is redeemed in full if and only if it is still the disputed one |
| `Income.AccessIsCollected` | microraiden/proxy/resources/paywall_decorator.py:87-151 | Over any run of chain, daemon and paywall in which payments come through the paywall: presenting the stored proof of an unsettled channel between ordinary accounts, with a readable recovery byte, commits, and withdrawals and close together have then paid the receiver exactly the sum of the prices of all requests granted on the channel |
| `Paywall.GrantedExactlyWhen` | microraiden/proxy/resources/paywall_decorator.py:87-151 | Access is granted if and only if the proof is valid and its balance is the stored balance plus the price, within the deposit; only then do the books change, by exactly the price |
| `Paywall.ReplyExact` | microraiden/proxy/resources/paywall_decorator.py:87-151 | For every payment: only an unreadable signature gets no reply; each error header is set if and only if its own cause holds, and exactly who proved to be the sender is shown the stored balance with its proof |
| `Paywall.AccessIsPaid` | microraiden/proxy/resources/paywall_decorator.py:87-151 | Over every run of requests and manager calls a stored balance equals the sum of the prices granted on the channel, and the sum of the amounts reported as received |
| `Paywall.OldProofNeverGranted` | microraiden/channel_manager/manager.py:396-401 | A proof for a balance a confirmed channel has reached never buys access again, resets included, until the channel is settled |
| `Paywall.PaywallResource.PaywallCheck` | microraiden/proxy/resources/paywall_decorator.py:87-151 | Reply, headers and stored map are those of the check specification, error headers included |
| `Session.Converges` | microraiden/client/session.py:45-296 | Client and server with one confirmed open channel and room for the price: access within two requests if the session holds the channel, within three if it must find it, from any client-side balance; both sides end with the stored balance plus the price |
| `Session.AccessExactlyWhen` | microraiden/client/session.py:45-296 | Three requests suffice if and only if the stored balance plus the price is within the server's deposit |
| `Wallets.ClientAccessExactlyWhen` | microraiden/client/session.py:45-296 | A session without a channel whose client has one open channel to the receiver, whatever balance it has on record: three requests get access if and only if that channel can pay or the wallet can raise it, and the server's deposit has room; stated of exactly what `HttpSession.Request` guarantees |
| `Wallets.ToppedUpPays` | microraiden/client/session.py:282-290 | Asked to pay with an open channel without room, the session tops it up by what its wallet allows and pays if and only if that makes room |
| `Wallets.RaisedAccessExactlyWhen` | microraiden/client/session.py:212-296 | A session whose channel has no room, from any client-side balance within the deposit, gets access with the request after the server has confirmed its top-up, if and only if its wallet could raise the channel by enough |
| `Session.NoRoomNoAccess` | microraiden/client/session.py:45-296 | Without that room no number of requests gets access or aborts for a disguised payment |
| `Session.DisguiseUnreachable` | microraiden/client/session.py:225-241 | Against a server that runs the paywall the disguise abort is never reached, whatever either side has stored |
| `Session.ReactionExact` | microraiden/client/session.py:106-302 | Against any server whatever: each reason to stop, and coming back unpaid, means exactly one thing |
| `Session.ExposureBounded` | microraiden/client/session.py:212-296 | Against any server that cannot prove a balance the client never signed, a session never signs more than what was signed before plus the prices asked since |
| `ClientObjects.HttpSession.Request` | microraiden/client/session.py:45-53 | The retry loop is the request run of the specification, over the session's, the client's and the server's objects; in every request the channel found and the amount topped up are what the client's channels of that moment and the wallet grant |
| `ClientObjects.HttpSession.RequestResource` | microraiden/client/session.py:106-166 | One request and its reaction, on the objects; the channel found is the one that the client's channels and wallet grant, and no other channel of the client changes |
| `ClientObjects.HttpSession.HandleResponse` | microraiden/client/session.py:136-166 | The dispatch order, for any reply; a reply that asks for no payment is granted nothing, and otherwise channel and top-up are those that the client's channels and wallet grant |
| `ClientObjects.HttpSession.OnInvalidAmount` | microraiden/client/session.py:212-255 | Adopts a proven different balance, aborts on a proven equal one, reverts to zero otherwise, and pays, with what the client's channels and wallet grant |
| `ClientObjects.HttpSession.OnPaymentRequested` | microraiden/client/session.py:257-296 | Finds a channel as get_suitable_channel does where none is open, tops up by what the wallet allows, or pays with the one at hand; no other channel of the client changes |
| `ClientSync.SyncFollowsChain` | microraiden/client/client.py:64-140 | For every log the contract can produce in which this sender used no key twice, whatever others do, a sync leaves exactly the sender's created and unsettled channels with their on-chain deposits; balances change only for close-requested channels, which are settling; nothing is raised |
| `ClientSync.SyncMirrorsContract` | microraiden/client/client.py:64-140 | After any run of the contract in which this sender used no key twice, whatever everybody else did, a sync leaves exactly the sender's channels in the contract's storage: deposit and opening block as stored, settling at the stored requested balance if and only if a close request is stored |
| `ClientSync.SyncIdempotent` | microraiden/client/client.py:64-140 | Running it again changes nothing |
| `ClientSync.SyncRaisesExactlyWhen` | microraiden/client/client.py:64-140 | On any log a sync raises if and only if an event of this sender names a channel that is neither held nor created in that log |
| `ClientObjects.Client.SyncChannels` | microraiden/client/client.py:64-140 | The client's channel objects afterwards are the synchronised book; known channels keep their objects |
| `ClientObjects.Client.GetOpenChannels` | microraiden/client/client.py:219-229 | Exactly the client's open channels to the receiver |
| `ClientObjects.Client.GetSuitableChannel` | microraiden/client/client.py:231-291 | The open channel with the least sufficient capacity; failing that, the one with the most capacity, topped up to exactly the wanted one; failing that, a new one; no other channel changes |
| `Wallets.FoundSuffices` | microraiden/client/client.py:231-291 | Any channel it comes up with is open to the receiver and sustains the transfer, unless the chain opened a smaller one than asked for |
| `Wallets.PickIsThrifty` | microraiden/client/client.py:231-291 | A channel that suffices has the least slack of all that do; one that is raised needs the fewest tokens and ends with exactly the wanted capacity |
| `Wallets.NewChannelExact` | microraiden/client/client.py:276-291 | A new channel is found if and only if the wallet covers price and initial deposit and the event appears; it starts unspent with the event's deposit |
| `ClientObjects.Client.OpenChannel` | microraiden/client/client.py:142-217 | A new open channel with balance zero and the event's deposit is appended, exactly if tokens suffice and the event appears |
| `ClientObjects.Channel.UpdateBalance` | microraiden/client/channel.py:59-61 | The stored signature is always the key's on the stored balance |
| `ClientObjects.Channel.CreateTransfer` | microraiden/client/channel.py:297-323 | The balance grows by the value and is signed exactly if funds suffice and the channel is not closed; a channel valid by its own check stays so |
| `ClientObjects.Channel.TopUp` | microraiden/client/channel.py:76-130 | The deposit grows exactly for an open channel with enough tokens whose event appears |

## Left out

- ClientObjects.HttpSession.Request: stops after a given number of requests, where the original loop has no bound; waiting
  between retries and the user's hooks (`on_init`, `on_exit`, `on_http_response`) are not modelled.
- ClientObjects.Client.GetSuitableChannel: which of several channels with equal capacity is taken is not stated.
- ClientObjects.Client.SyncChannels: the order of the resulting list is not stated; keys in the client's list are taken to be
  distinct, as the dictionary of the original assumes.
- ClientSync.SyncFollowsChain: locally closed channels are taken to be settled on chain, locally settling ones to have a
  close request there, and no key of this sender to be used twice.
- Sync.RoundFollows: the receiver's own keys are taken to be used once, here and in all runs of the daemon; see Assumptions.
- Session.Converges: the server's records are taken to change through this session only while it converges.
- Redeem.Redeemable: blocks taken for confirmed are final, no round takes the confirmed head back, no key of this receiver is
  used twice, and the receiver withdraws only with stored proofs; sender and receiver are ordinary accounts that can hold
  tokens. Re-created keys are the subject of `Redeem.CashableExactlyWhen` instead.
- Redeem.JointRun: what the daemon does after a round that raised is not modelled; the original's greenlet ends there.
- Manager.ChannelManager.CloseChannel: gas, nonce and raw encoding of the transaction are not modelled.
- Congestion.CongestionValidator.ValidateRLPHeaders: decoding RLP is a given function from bytes to number, gas limit and gas
  used; the RLP library is not part of this model.
- The concrete tokens: a standard EIP-20 ledger is modelled; minting, names and the delegate example are not.
- SQLite itself, file locks and permissions, the metadata table, modification times; stored numbers come back as stored.
- A ConnectionError or another exception from the node in the middle of a round, and greenlet interleavings inside handlers.
- Elliptic-curve arithmetic, keccak and address checksums; the text encoding of strings in `pack`.
- A malformed signature raises in the original's library; the model reports it as its own failure, which the paywall does
  not catch.
- Cooperative and uncooperative closing from the client, its settle call, and the server's channel-management resources.
- A daemon restarted on an existing database: runs start with a fresh one.
- `unconfirmed_deposit`, a sum shown to clients only.
- HTTP, cookies, web pages, logging, command-line tools, the browser client, test fixtures and deployment scripts.
