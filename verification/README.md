# A verified model of avalanche-rosetta's accounting

avalanche-rosetta turns Avalanche blocks into Rosetta operations, turns operations back into transactions, and answers
balance queries. This project models the parts of it that account for value, in Dafny, and proves what they promise.
`dafny verify dfyconfig.toml` checks everything.

| files | what they model |
|---|---|
| `CallTree.dfy` | the EVM call tree, its in-place revert propagation and its flattening |
| `EvmOperations.dfy`, `TraceLedger.dfy`, `TraceProperties.dfy` | call traces to operations, with the ledger of destroyed accounts, against an independent EVM ledger |
| `EvmTransaction.dfy`, `EvmTokens.dfy` | fees and ERC-20 and ERC-721 transfer logs, and what each shows |
| `CrossChain.dfy` | C-chain imports and exports in blocks, and their fee |
| `PchainModel.dfy`, `PchainDependency.dfy`, `PchainTxOps.dfy`, `PchainParser.dfy` | P-chain transactions, what they depend on, and parsing in construction and block mode |
| `PchainProperties.dfy`, `PchainReconciliation.dfy`, `PchainCoinIds.dfy`, `PchainCompleteness.dfy`, `PchainOutcomes.dfy` | identifiers, operations without the loops, spends against creations over whole runs, coin ids, completeness of dependencies, and when parsing succeeds |
| `ForkJoin.dfy`, `PchainBlocks.dfy` | the concurrent dependency fetch as a state machine over its steps, and blocks parsed with what it returns |
| `PchainBuilder.dfy`, `PchainRoundTrip.dfy`, `Credentials.dfy`, `PchainSigning.dfy`, `PchainExamples.dfy` | building P-chain transactions, the round trip through the parser, signers and credentials, and inputs on which they fail |
| `AtomicTx.dfy`, `AtomicSigning.dfy` | building and parsing C-chain atomic transactions, their signers and credentials |
| `CallData.dfy` | ERC-20 transfer and bridge unwrap call data, byte by byte (EIP-20, "Methods: transfer"; Solidity Contract ABI Specification, "Function Selector" and "Argument Encoding") |
| `Balances.dfy`, `Rewards.dfy`, `Pagination.dfy`, `DoubleCollect.dfy`, `BalanceAtHeight.dfy` | balances, pending rewards, paged reads, reads that race with the chain and its peers, and all of it together |

Code that works by changing things is modelled by classes and loops, each proved against a specification function or
relation; the laws are then proved about the specification. Concurrency is modelled by steps, and laws about it hold of
every interleaving.

## What does not hold

Some promises hold only under a condition. For each, a condition is proved to be exact in both directions, except for
shared memory, where it is sufficient; and each has a concrete input on which the promise fails.

- A reverted SELFDESTRUCT still resets the ledger of destroyed accounts, and a reverted CREATE still deletes from it, so
  the trace may abort and replayed balances may differ from the EVM's: `TraceProperties.AbortsIffBelowBalanceAtDeath`
  and `TraceProperties.ReplayAgreesIff`; inputs in `TraceProperties.RevertedSelfDestructAborts`,
  `TraceProperties.RevertedSelfDestructWipesGains` and `TraceProperties.RevertedCreateKeepsGains`.
- A CALLCODE or DELEGATECALL with a value is booked like a payment, which the EVM does not make; the same two lemmas say
  when balances and the abort are right all the same; inputs in `TraceProperties.CallCodeIsBooked` and
  `TraceProperties.CallCodeAborts`.
- Stake outputs, and the exported outputs of an export, are numbered from the count of reported outputs, which is too
  small when a base output has several owners: `PchainCoinIds.CoinIdsAgree` and `PchainCoinIds.ExportedCoinIdsAgree`;
  inputs in `PchainCoinIds.ShiftedStake` and `PchainCoinIds.ShiftedExport`.
- Amounts of created outputs pass through int64: `PchainReconciliation.SpentWasCreated` and
  `PchainRoundTrip.RoundTrip`; input in `PchainExamples.LargeCreditComesBackNegative`.
- The fee of a cross-chain import takes in other assets, and amounts through int64: `CrossChain.ImportFeeCorrectIff`;
  inputs in `CrossChain.MixedImportFee` and `CrossChain.OversizedImportFee`.
- The fee of a cross-chain export takes off every asset exported, once per AVAX input, and nothing when the destination
  is unknown; the exported outputs are listed once per AVAX input too: `CrossChain.ExportFeeCorrectIff` and
  `CrossChain.ExportedCoinsDistinctIff`; inputs in `CrossChain.MixedExportFee`, `CrossChain.TwoInputExport` and
  `CrossChain.UnknownDestinationExport`.
- Payloads are one per debit, credentials are built for the signature indices of the inputs that get any, and the two
  numbers can differ, as in an import with base inputs: `PchainSigning.CombinesIff`; input in
  `PchainExamples.BaseInputCannotBeSigned`.
- Payloads come in operation order, inputs in sorted order: `PchainSigning.SignaturesFollowOrder`; input in
  `PchainExamples.SwappedSignatures`. C-chain imports are the same: `AtomicSigning.ImportSignaturesFollowOrder`; input in
  `AtomicSigning.SwappedImport`.
- A C-chain export of several debits asks for a payload each and gets one credential, and parsing names the last debit's
  account as the signer of all: `AtomicSigning.ExportSignedIff` and `AtomicSigning.ExportReportsIff`; input in
  `AtomicSigning.TwoDebitExport`.
- Operation types a kind does not carry are dropped without an error: `PchainRoundTrip.RoundTrip`; input in
  `PchainExamples.ExportInImportIsDropped`.
- Token amounts of 2^248 and more are shown without their top byte: `CallData.Erc20RoundTrip`; input in
  `CallData.LargeTransferShowsNothing`.
- The staked amount is added without an overflow check: `Balances.FetchBalance`; input in `Balances.StakeWrapsToZero`.
- The C-chain balance adds up pages without removing repeats: `Pagination.CollectedSum`; input in
  `Pagination.OverlapIsCountedTwice`.
- Comparing heights before and after does not protect reads of shared memory, which other chains change without a block
  of this one: `DoubleCollect.SharedAnswerIsOneSnapshot` gives a condition; input in `DoubleCollect.DisturbedAnswer`.

## Model

| member | source | states |
|---|---|---|
| `CallTree.Call.Init` | client/types.go:77-109 | in place, the call object ends up with its own and its parents' failures marked, and the returned list is the pre-order of the marked tree |
| `CallTree.Call.InitChildren` | client/types.go:91-106 | the children loop marks each child in turn and concatenates their lists in order |
| `CallTree.Call.InitChild` | client/types.go:91-106 | one child is marked from its parent and initialised; its siblings keep their contents |
| `CallTree.Call.InheritFrom` | client/types.go:92-102 | a reverted parent reverts the child, and lends its error text only if the child has none |
| `CallTree.Call.Settle` | client/types.go:78-88 | missing amounts become zero and an error text means reverted |
| `CallTree.InitMarksExactlyFailedSubtrees` | client/types.go:84-102 | for every tree and every node: reverted afterwards if and only if the node or a call above it had failed, with the nearest error text on its path |
| `CallTree.PropagatedNode` | client/types.go:77-109 | the same for a subtree under any inherited state, and kind, addresses and amounts of every node are kept |
| `CallTree.InitIsIdempotent` | client/types.go:77-109 | initialising twice is initialising once |
| `CallTree.PreorderLength` | client/types.go:90-108 | the flat list has one entry per call of the tree |
| `CallTree.PreorderAtPosition` | client/types.go:65-108 | the entry at a node's position is that node flattened |
| `CallTree.CallIsListed` | client/types.go:65-108 | at a node's position the list after initialising has the node's own kind, addresses and amounts, zero for missing ones; reverted if and only if it or a call above it failed, and with the nearest error text |
| `CallTree.PositionIsOnto` | client/types.go:90-108 | every entry of the flat list is some node of the tree |
| `CallTree.PositionFollowsPathOrder` | client/types.go:90-108 | positions order nodes as pre-order does, so no two nodes share one |
| `TraceLedger.TraceOps` | mapper/transaction.go:384-536 | aborts exactly if some destroyed account's recorded amount is negative at the end; otherwise the operations are those of the calls followed by one DESTRUCT per account with a non-zero residue, in some order of the map |
| `TraceLedger.RecordCall` | mapper/transaction.go:392-507 | one round of the loop: the call's operations, and the map moved on by credit, debit, SELFDESTRUCT reset and CREATE deletion |
| `TraceLedger.ZeroOut` | mapper/transaction.go:509-533 | the final loop over the map, whatever order the map is visited in |
| `TraceLedger.StepTracks` | mapper/transaction.go:392-507 | a round that moves the map as RecordCall does keeps it equal, account by account, to what the account gained since its last SELFDESTRUCT that no CREATE undid, and appends exactly the call's operations |
| `TraceLedger.ResidualLeavesOps` | mapper/transaction.go:521 | an account with a residue has operations before it, so the last operation read for the next identifier exists |
| `TraceProperties.TraceIdentifiersDense` | mapper/transaction.go:384-536 | operation identifiers run from the start index without a gap and related identifiers are smaller |
| `TraceProperties.OpsAtAreCallOps` | mapper/transaction.go:392-507 | the stretch of operations a call contributes is that call's own pair, cut out of the whole list |
| `TraceProperties.FrameIsShown` | mapper/transaction.go:392-507 | every outcome shows frame i after those before it: nothing if its value is zero and its kind is one of the four call kinds, otherwise a debit of the sender and, unless it is a SELFDESTRUCT into itself, a credit of the receiver related to exactly that debit; amounts are absent if and only if the value is zero, and the error text is there if and only if it was reverted |
| `TraceProperties.StatusFollowsRevertedSubtree` | mapper/transaction.go:394-398 | an operation of a call fails if and only if the call or one above it in the tree had failed |
| `TraceProperties.TraceConservation` | mapper/transaction.go:384-536 | for every trace that does not abort and every map order, successful amounts add up to minus what self-beneficiary SELFDESTRUCTs and residues burn |
| `TraceProperties.LastDeathIsLast` | mapper/transaction.go:448-471 | the last SELFDESTRUCT of an account that no later CREATE undoes, as the residue counts it |
| `TraceProperties.ResidualIsGainSinceDeath` | mapper/transaction.go:440-507 | a residue is the net successful amount on the account since its last SELFDESTRUCT |
| `TraceProperties.DestructCancelsGainsSinceDeath` | mapper/transaction.go:509-533 | each DESTRUCT operation takes exactly what the operations since that SELFDESTRUCT put on the account, and carries the next identifier |
| `TraceProperties.BalanceIsOpeningPlusNet` | mapper/transaction.go:384-507 | under an EVM ledger in which CALLCODE, DELEGATECALL and STATICCALL frames pay nobody, the net of the successful operations on an account is what its balance changed by plus its phantom payments, the values the mapper books for such frames |
| `TraceProperties.HeldIsGainSinceDeath` | mapper/transaction.go:437-507 | the recorded amount of an account is what its EVM balance and its phantom payments together changed by since its death |
| `TraceProperties.AbortsIffBelowBalanceAtDeath` | mapper/transaction.go:512-518 | the fatal branch fires if and only if for some recorded account EVM balance and phantom payments together end below what they were when it was destroyed |
| `TraceProperties.AbortUnreachable` | mapper/transaction.go:437-521 | if values are covered as the EVM demands, no SELFDESTRUCT was reverted, and no CALLCODE, DELEGATECALL or STATICCALL with a value that took effect names the account on one side only, the recorded amount equals its EVM balance after every prefix, so the fatal branch cannot fire for it |
| `TraceProperties.RevertedSelfDestructAborts` | mapper/transaction.go:448-471 | a concrete affordable trace with a reverted SELFDESTRUCT that reaches the fatal branch |
| `TraceProperties.OutcomeNet` | mapper/transaction.go:384-536 | the net of all operations on an account, DESTRUCT included |
| `TraceProperties.ReplayedBalance` | mapper/transaction.go:384-536 | the balance somebody replaying the operations arrives at, for every trace and account: EVM balance and phantom payments at the end, or at the recorded SELFDESTRUCT of a recorded account |
| `TraceProperties.ReplayAgreesIff` | mapper/transaction.go:384-536 | that is the balance the EVM leaves if and only if EVM balance and phantom payments at that point add up to zero for a destroyed account and to the final balance for another; for an account without a record and not destroyed, if and only if its phantom payments cancel |
| `TraceProperties.ReplayReachesEvmBalance` | mapper/transaction.go:384-536 | replaying the operations reaches the EVM's balance for every account none of whose SELFDESTRUCTs and creations was reverted and that no phantom payment names |
| `TraceProperties.RevertedSelfDestructWipesGains` | mapper/transaction.go:448-471 | a concrete trace with a reverted SELFDESTRUCT after which replaying loses a live account's gains |
| `TraceProperties.RevertedCreateKeepsGains` | mapper/transaction.go:459-471 | a concrete affordable trace without reverted SELFDESTRUCTs, but with a reverted CREATE2, after which replaying leaves 4 on an account the EVM empties |
| `TraceProperties.CallCodeIsBooked` | mapper/transaction.go:401-444 | one concrete CALLCODE of 5 that replays to 0 and 5 where the EVM leaves 5 and 0 |
| `TraceProperties.CallCodeAborts` | mapper/transaction.go:437-444 | a concrete covered trace in which nothing is reverted, and two CALLCODEs of a destroyed account reach the fatal branch |
| `EvmTransaction.Transaction` | mapper/transaction.go:37-139 | the fee pair, then the trace's operations, then the operations of the logs; fails exactly if a Transfer event that is let through needs contract information that cannot be had, and aborts exactly if the trace does |
| `EvmTransaction.MapLog` | mapper/transaction.go:86-124 | one log: no answer exactly if its contract information is missing, otherwise its operations |
| `EvmTransaction.TransactionIdentifiersDense` | mapper/transaction.go:56-124 | all operations of a transaction are numbered 0 to n-1 and related identifiers are smaller |
| `EvmTransaction.TokenBalancesFollowEvents` | mapper/transaction.go:86-124 | replaying the operations of one ERC-20 contract gives every holder exactly the net of its transfer events |
| `EvmTokens.TransactionShows` | mapper/transaction.go:56-124 | a mapped transaction shows the fee pair, and every admitted ERC-20 and ERC-721 event where the logs before it leave off, field by field: mints and burns as one operation, other transfers as a debit and a credit related to it, with the token or amount of the event |
| `EvmTokens.TokensFollowEvents` | mapper/transaction.go:594-652 | per account and ERC-721 contract, and per single token: receive and mint operations minus sender and burn operations are the admitted four-topic events to the account minus those from it |
| `EvmTransaction.TransactionConservesAvax` | mapper/transaction.go:37-139 | the AVAX operations add up to minus what the trace burns; fees and tokens cancel |
| `EvmTransaction.AvaxBalancesFollowTrace` | mapper/transaction.go:37-139 | for every account, replaying a whole transaction gives the replayed trace's balance and the fee paid or received; that is the EVM's balance if no SELFDESTRUCT and no creation of the account was reverted and no phantom payment names it |
| `CrossChain.CrossChainTransaction` | mapper/transaction.go:141-277 | imports and exports are mapped as below; an export fails exactly if outputs must be listed for an unknown network |
| `CrossChain.MapImport` | mapper/transaction.go:164-212 | one numbered operation per AVAX output times 10^9, and a fee that takes imported amounts of all assets through int64 |
| `CrossChain.MapExport` | mapper/transaction.go:213-270 | one numbered operation per AVAX input times minus 10^9; the exported outputs are listed, and subtracted from the fee, once per AVAX input, numbered after the operations |
| `CrossChain.CreateExportedOuts` | mapper/transaction.go:279-325 | one entry per exported output with the coin of its index and its first owner's account, and their exact sum |
| `CrossChain.Renumber` | mapper/transaction.go:263-270 | deferred identifiers continue without a gap |
| `CrossChain.TransferIsShown` | mapper/transaction.go:179-246 | every AVAX entry is shown after those before it with its address, sign and 10^9 units per unit |
| `CrossChain.ExportedIsShown` | mapper/transaction.go:213-325 | in each of the listings, of which there is one per AVAX input, output i is shown with its coin, first owner's account and amount, numbered on from the operations |
| `CrossChain.OpsSumIsAvaxSum` | mapper/transaction.go:179-246 | operation amounts add up to the AVAX moved, at 18 decimals and with the direction's sign |
| `CrossChain.ImportFeeError` | mapper/transaction.go:164-186 | by how much the import fee is off, for all inputs: other assets, and 2^64 per amount of 2^63 or more |
| `CrossChain.ImportFeeCorrectIff` | mapper/transaction.go:164-274 | for every import the fee is AVAX in minus AVAX out if and only if the other assets imported add up to 2^64 per amount of 2^63 or more; for amounts that fit int64, if and only if no other asset of value is imported |
| `CrossChain.MixedImportFee` | mapper/transaction.go:164-174 | a concrete import of a second asset that shows a fee of 4 where none was paid |
| `CrossChain.OversizedImportFee` | mapper/transaction.go:164-174 | a concrete import of 2^63 that shows a fee of minus 2^64 |
| `CrossChain.ExportFeeCorrectIff` | mapper/transaction.go:213-274 | for every export the fee is AVAX in minus AVAX exported if and only if: when outputs are listed, nothing of value is exported, or there is one AVAX input and no other asset of value; otherwise no AVAX is exported |
| `CrossChain.MixedExportFee` | mapper/transaction.go:299-325 | a concrete export of AVAX and a second asset whose fee is minus 3 instead of 1 |
| `CrossChain.TwoInputExport` | mapper/transaction.go:248-257 | a concrete export with two AVAX inputs whose fee is minus 8 instead of 1 and whose coin is listed twice |
| `CrossChain.UnknownDestinationExport` | mapper/transaction.go:248-257 | a concrete export to a chain without an alias whose fee is the whole input |
| `CrossChain.ExportedCoinsDistinctIff` | mapper/transaction.go:248-257 | the exported coins are listed once each if and only if there is one AVAX input or no output |
| `CrossChain.SingleInputExport` | mapper/transaction.go:263-325 | with one AVAX input: one operation, then the exported outputs numbered on without a gap, each with its own coin |
| `PchainDependency.GetTxDependenciesIDs` | mapper/pchain/tx_dependency.go:22-74 | the ids are strictly increasing and are exactly the ids of the base inputs, or of the rewarded transaction; only unknown kinds are errors |
| `PchainDependency.SingleTxDependency.GetUtxos` | mapper/pchain/tx_dependency.go:121-192 | the first call computes the transaction's UTXOs, later calls answer from the cache, and every answer is the same map |
| `PchainDependency.UtxosOfExact` | mapper/pchain/tx_dependency.go:121-192 | the keys are the outputs by index and the reward UTXOs no output hides, each with its own value |
| `PchainDependency.GetReferencedAccounts` | mapper/pchain/tx_dependency.go:77-119 | an account for every single-owner UTXO of every dependency and for nothing else, for any map order; an error exactly if some UTXO lists no addresses |
| `PchainDependency.AddAccounts` | mapper/pchain/tx_dependency.go:86-116 | the loop over one dependency's UTXOs adds all its single-owner accounts and only sound entries |
| `ForkJoin.CollectIDs` | service/backend/pchain/block.go:163-171 | the ids of a block are the union of its transactions' dependency ids |
| `ForkJoin.SendNeverBlocks` | service/backend/pchain/block.go:173-186 | in every interleaving the channel holds at most as many dependencies as ids, and a worker about to send finds room |
| `ForkJoin.ResultIsDetermined` | service/backend/pchain/block.go:161-191 | a finished run returns an error if and only if some fetch fails, and otherwise the map from each requested id to its own dependency, whatever the interleaving and repeated ids |
| `ForkJoin.NextKeepsInv` | service/backend/pchain/block.go:161-239 | every step of a worker, the join or the drain keeps the invariant |
| `ForkJoin.StepsRunOut` | service/backend/pchain/block.go:161-239 | every step uses up a bounded measure, so no run goes on for ever |
| `ForkJoin.NeverStuck` | service/backend/pchain/block.go:161-239 | until the result is returned some step is possible |
| `PchainCompleteness.OwnerFoundIffKnown` | mapper/pchain/tx_parser.go:477-495 | with the accounts collected from the dependencies, an input gets an owner if and only if its UTXO is found with its addresses, and is skipped if and only if it has not exactly one owner |
| `PchainCompleteness.DependenciesSuffice` | mapper/pchain/tx_parser.go:117-207 | for every kind, if all spent UTXOs are found in their dependencies, parsing never returns a multisig-check, missing-account or missing-dependency error |
| `PchainCompleteness.FetchedBlockSuffices` | service/backend/pchain/block.go:161-191 | the same from the ids of a block through any interleaving of the fetch to parsing each of its transactions |
| `PchainOutcomes.ParsesIff` | mapper/pchain/tx_parser.go:117-207 | every kind, block and construction mode: parsing succeeds if and only if every input can be read and traced, every asset that is shown is known, every output is a transfer, and the destination and the rewarded staking transaction are known |
| `PchainTxOps.TxOps.Append` | mapper/pchain/tx_ops.go:37-62 | the operation goes to the list its metadata type names, imports and exports apart and without identifier outside construction |
| `PchainTxOps.TxOps.IncludedOperations` | mapper/pchain/tx_ops.go:19-25 | inputs, then outputs, then stake outputs |
| `PchainParser.TxParser.InsToOperations` | mapper/pchain/tx_parser.go:439-526 | one operation per input whose UTXO has one owner, in order, or the first error |
| `PchainParser.TxParser.InputOperation` | mapper/pchain/tx_parser.go:450-524 | one round: the account, the negated amount, the spent coin and the signature metadata |
| `PchainParser.TxParser.IsMultisig` | mapper/pchain/tx_parser.go:724-743 | a UTXO that is not found or lists no addresses is an error, otherwise multisig means not exactly one address |
| `PchainParser.TxParser.OutsToOperations` | mapper/pchain/tx_parser.go:545-602 | one operation per single-owner output, coins numbered from the count of outputs already reported |
| `PchainParser.TxParser.UtxosToOperations` | mapper/pchain/tx_parser.go:604-659 | one operation per single-owner reward UTXO under its own coin id |
| `PchainParser.TxParser.OutputOperation` | mapper/pchain/tx_parser.go:559-598 | one round of the output loops |
| `PchainParser.TxParser.BaseTxToCombinedOperations` | mapper/pchain/tx_parser.go:423-437 | base inputs, then base outputs |
| `PchainParser.TxParser.ParseImportTx` | mapper/pchain/tx_parser.go:239-258 | base inputs, imported inputs, outputs |
| `PchainParser.TxParser.ParseExportTx` | mapper/pchain/tx_parser.go:220-237 | the base operations and the exported outputs under the destination's alias, which must be known |
| `PchainParser.TxParser.ParseStakingTx` | mapper/pchain/tx_parser.go:260-324 | the base operations and the stake outputs, for all four staking kinds |
| `PchainParser.TxParser.ParseRewardValidatorTx` | mapper/pchain/tx_parser.go:326-356 | the reward UTXOs of the staking transaction named |
| `PchainParser.TxParser.Parse` | mapper/pchain/tx_parser.go:117-207 | for every kind and mode, the operations and the two metadata lists of the specification, or its error |
| `PchainParser.TxParser.AddOperationIdentifiers` | mapper/pchain/tx_parser.go:209-218 | identifiers run on from the start index |
| `PchainProperties.ParseIdentifiersDense` | mapper/pchain/tx_parser.go:185-218 | for every kind and mode, operation i has identifier i, and imported inputs, then exported outputs, continue without a gap |
| `PchainProperties.UtxosCreate` | mapper/pchain/tx_parser.go:604-659 | a loop over outputs appends exactly one operation per single-owner output, in order, with its coin, account and amount, to one list only |
| `PchainProperties.InsSpend` | mapper/pchain/tx_parser.go:439-526 | a loop over base inputs appends exactly one operation per input that is not skipped, in order, with its coin, account and amount |
| `PchainProperties.TrueCoinsAreSingleOwnerUtxos` | mapper/pchain/tx_dependency.go:121-192 | the coins of a transaction's single-owner outputs are the single-owner keys of GetUtxos |
| `PchainReconciliation.BlockOperationsExact` | mapper/pchain/tx_parser.go:117-207 | block mode, every kind: the operations are exactly the spends of single-owner inputs, showing minus the amount, the signature indices and the locktime, and the creations of single-owner outputs, showing the amount through int64, the owner, locktime and threshold; the currency is AVAX's or the asset's and the status success; the imported-input and exported-output lists likewise |
| `PchainProperties.BlockOperationsTyped` | mapper/pchain/tx_parser.go:117-207 | block mode, every kind: every operation has the transaction's type and its list's metadata type |
| `PchainCoinIds.CoinIdsAgree` | mapper/pchain/tx_parser.go:553-598 | the coin ids of created outputs among the operations are the ids the chain gives them if and only if, for staking kinds, all base outputs have one owner or no stake output does |
| `PchainCoinIds.ExportedCoinIdsAgree` | mapper/pchain/tx_parser.go:220-237 | the coin ids of an export's exported outputs are numbered from the count of reported base outputs, and are the ids the chain gives them if and only if all base outputs have one owner or no exported output does |
| `PchainCoinIds.OffsetAgrees` | mapper/pchain/tx_ops.go:33-35 | numbering any list from the reported count agrees with numbering it after all base outputs under exactly that condition |
| `PchainCoinIds.StakeOffset` | mapper/pchain/tx_ops.go:33-35 | numbering stake outputs from the reported count agrees with their true numbers under exactly that condition |
| `PchainCoinIds.ShiftedStakeCollides` | mapper/pchain/tx_parser.go:553 | a stake output shifted onto a single-owner base output makes two operations create one coin |
| `PchainCoinIds.ShiftedStake` | mapper/pchain/tx_parser.go:553 | a concrete delegation whose stake, output 1, is reported as output 0 |
| `PchainCoinIds.ShiftedExportCollides` | mapper/pchain/tx_parser.go:231 | an exported output shifted onto a single-owner base output: an operation and an exported output name one coin |
| `PchainCoinIds.ShiftedExport` | mapper/pchain/tx_parser.go:231 | a concrete export whose exported output 1 is reported as output 0 |
| `PchainReconciliation.OutputReported` | mapper/pchain/tx_parser.go:545-602 | every single-owner output of a parsed transaction is reported, a base output under the id GetUtxos gives it, a stake output under the number of reported base outputs plus its own place |
| `PchainReconciliation.ReportedAsItself` | mapper/pchain/tx_parser.go:553 | that id is the chain's own if and only if the output is a base output or all base outputs have one owner |
| `PchainReconciliation.RewardReported` | mapper/pchain/tx_parser.go:326-356 | every single-owner reward UTXO paid out is reported by the reward transaction |
| `PchainReconciliation.AccountIsOwner` | mapper/pchain/tx_dependency.go:77-119 | the account looked up for a spent coin is the single owner recorded by the creating transaction, whatever other dependencies the block has |
| `PchainReconciliation.SpentWasCreated` | mapper/pchain/tx_parser.go:450-659 | over any run, blocks whose transactions spend each other's outputs included, every operation that spends a coin takes exactly the amount recorded in the UTXO spent, and has an earlier one that created it, with the same account and currency, the opposite amount if and only if that is below 2^63, and the same coin if and only if it is no stake output behind a base output of several owners; the coin has exactly one owner |
| `PchainBlocks.FetchedBlocksRun` | service/backend/pchain/block.go:161-191 | blocks parsed with what their own fetches returned from honest nodes, in any interleavings, meet all that such a run asks of its dependencies |
| `PchainBlocks.FetchedSpendWasCreated` | service/backend/pchain/block.go:124-191 | from the fetch of each block to its operations: every spending operation has an earlier creating one, perhaps of the same block |
| `PchainBlocks.SameBlockSpend` | mapper/pchain/helper.go:8-33 | a concrete block in which one transaction spends another's output, parsed with itself among the dependencies, meets these conditions and reports the spend |
| `PchainBuilder.BuildInputs` | mapper/pchain/tx_builder.go:447-498 | errors exactly for an undecodable coin or a type that is no input; otherwise the inputs of each type, sorted by UTXO and complete, and the signers in operation order |
| `PchainBuilder.BuildOutputs` | mapper/pchain/tx_builder.go:520-577 | errors exactly for an unparsable address or a type that is no output; otherwise the outputs of each type, sorted and complete |
| `PchainBuilder.SumOutputAmounts` | mapper/pchain/tx_builder.go:579-589 | the exact sum, or an error exactly if it does not fit 64 bits |
| `PchainBuilder.BuildOutputOwner` | mapper/pchain/tx_builder.go:425-445 | all owners, sorted, or an error exactly if an address does not parse |
| `PchainBuilder.OwnersAreListed` | mapper/pchain/tx_builder.go:425-445 | the owners built are the owners of the addresses given, neither more nor fewer |
| `PchainBuilder.WeightGrows` | mapper/pchain/tx_builder.go:579-589 | one more credit adds its amount, modulo 2^64, to the weight if and only if its type is stake |
| `PchainBuilder.BuildImportTx` | mapper/pchain/tx_builder.go:59-90 | the import holds the base and imported inputs and the outputs; stake and export outputs are dropped |
| `PchainBuilder.BuildExportTx` | mapper/pchain/tx_builder.go:93-127 | the export holds the base inputs, outputs and exported outputs, and needs export metadata |
| `PchainBuilder.BuildStakingTx` | mapper/pchain/tx_builder.go:131-423 | the four staking kinds: checks, owners, base inputs, outputs, stake outputs, and their exact sum as the weight |
| `PchainBuilder.BuildTx` | mapper/pchain/tx_builder.go:31-56 | dispatch: exactly the conditions under which building succeeds, and what is built |
| `PchainBuilder.SortInputs` | mapper/pchain/tx_builder.go:494-495 | stands for the library sort: some sorted permutation |
| `PchainBuilder.SortOutputs` | mapper/pchain/tx_builder.go:572-574 | stands for the library sort by encoded bytes: some sorted permutation |
| `PchainBuilder.SortedByEncoding` | mapper/pchain/tx_builder.go:572-574 | outputs are sorted as the numbers that their encoded amount, locktime, threshold and address spell |
| `PchainRoundTrip.InsReadBack` | mapper/pchain/tx_parser.go:439-526 | construction mode reads every input back, in order |
| `PchainRoundTrip.UtxosReadBack` | mapper/pchain/tx_parser.go:604-659 | construction mode reads every single-owner output back, in order |
| `PchainRoundTrip.ParseReadsBack` | mapper/pchain/tx_parser.go:117-207 | construction mode reads every entry of an import, export or staking transaction back, in the transaction's own order |
| `PchainRoundTrip.BuildThenRead` | mapper/pchain/tx_builder.go:447-577 | what is read back from a built transaction are the images of the kept operations, rearranged only by the sorts |
| `PchainRoundTrip.RoundTrip` | mapper/pchain/tx_builder.go:31-577 | build then parse gives the caller's operations, rearranged, if and only if every type is accepted by the kind, every field is one the transaction carries, debits are below 2^64 and credits below 2^63 |
| `PchainExamples.LargeCreditComesBackNegative` | mapper/pchain/tx_parser.go:692 | a concrete import of 2^63 that builds, and is shown by parsing with its credit as a second debit |
| `PchainExamples.ExportInImportIsDropped` | mapper/pchain/tx_builder.go:59-90 | a concrete import whose export-typed credit is dropped: it builds, and parsing shows the debit alone |
| `PchainExamples.BaseInputCannotBeSigned` | service/backend/pchain/construction.go:265-302 | a concrete import of one base input: it builds, and its one signature is one more than credentials are built for |
| `PchainExamples.SwappedSignatures` | mapper/pchain/tx_builder.go:491-497 | two concrete debits out of UTXO order: the first payload, Bob's, belongs to the input Alice owns |
| `Credentials.CollectSigners` | service/backend/common/construction.go:130-148 | the signers of all debits, in order |
| `Credentials.GetInputAddresses` | service/backend/common/construction.go:217-230 | the later of two signers for one coin counts |
| `Credentials.SignerFound` | service/backend/common/construction.go:217-230 | with distinct coins every signer is found under its own coin |
| `Credentials.GetAccountIdentifiers` | service/backend/common/types.go:95-122 | the signing account of every debit in operation order, or an error exactly if some debit's coin is unknown |
| `Credentials.BuildCredential` | service/backend/common/construction.go:302-317 | takes the next signatures, exactly if there are enough of the right length |
| `Credentials.BuildCredentialList` | service/backend/common/construction.go:267-289 | succeeds if and only if all inputs are plain transfers, the signatures are as many as the signature indices, and each has 65 bytes; then the credentials concatenate to the signatures in order, each of its input's size |
| `Credentials.BuildSingletonCredentialList` | service/backend/common/construction.go:292-300 | one credential of the first signature |
| `PchainSigning.SignersGiveAccounts` | service/backend/common/construction.go:130-148 | the signers collected at payloads give the parser each coin's own account |
| `PchainSigning.SignedInputs` | service/backend/pchain/construction.go:265-302 | which inputs get credentials: imported ones of imports, none of two kinds, an error for two, and base inputs of all others |
| `PchainSigning.CombinesIff` | service/backend/pchain/construction.go:265-302 | for every kind that can be built, with one signature per debit, the signatures are as many as credentials are built for if and only if the signature indices of the debits whose inputs get credentials add up to the number of debits |
| `PchainSigning.ImportCombinesIff` | service/backend/pchain/construction.go:265-302 | an import of debits with one signature index each, signed by all its payloads, has as many signatures as credentials are built for if and only if it spends no base input |
| `PchainSigning.SignaturesFollowOrder` | mapper/pchain/tx_builder.go:491-497 | the i-th signer the builder returns is the owner of input i if the debits come in UTXO order, and with distinct owners only then |
| `PchainSigning.ReportedSigners` | service/backend/common/types.go:95-122 | parsing reports as signer i the account that owns input i |
| `PchainSigning.CredentialsBelong` | service/backend/common/construction.go:267-317 | for one kind of single-signature inputs: credential i is signature i, reported signer i owns input i, and is the one asked for payload i if the debits come in UTXO order |
| `AtomicTx.BuildIns` | mapper/cchainatomictx/tx_builder.go:85-106 | all debits as EVM inputs sorted by address, and the signers in operation order |
| `AtomicTx.BuildImportedInputs` | mapper/cchainatomictx/tx_builder.go:108-137 | all debits as inputs sorted by UTXO, or the error of the first without a decodable coin |
| `AtomicTx.BuildOuts` | mapper/cchainatomictx/tx_builder.go:139-153 | all credits as EVM outputs, sorted |
| `AtomicTx.BuildExportedOutputs` | mapper/cchainatomictx/tx_builder.go:155-181 | all credits as single-owner outputs, sorted, or an error exactly if an address does not parse |
| `AtomicTx.BuildTx` | mapper/cchainatomictx/tx_builder.go:25-83 | imports and exports built from debits and credits, and exactly when that fails |
| `AtomicTx.BuiltFields` | mapper/cchainatomictx/tx_builder.go:58-181 | the fields no operation shows: asset, nonce, locktime zero, threshold one, signature index zero, and EVM entries sorted by address |
| `AtomicTx.InsToOperations` | mapper/cchainatomictx/tx_parser.go:85-102 | numbered debits of the EVM inputs |
| `AtomicTx.ImportedInToOperations` | mapper/cchainatomictx/tx_parser.go:104-132 | numbered debits with coins and the accounts given, or an error exactly if one is missing |
| `AtomicTx.OutsToOperations` | mapper/cchainatomictx/tx_parser.go:134-153 | numbered credits related to all debits |
| `AtomicTx.ExportedOutputsToOperations` | mapper/cchainatomictx/tx_parser.go:155-189 | numbered credits under the destination's alias related to all debits |
| `AtomicTx.Parse` | mapper/cchainatomictx/tx_parser.go:40-83 | the operations of the specification, or the unknown-destination or missing-account error |
| `AtomicTx.AtomicIdentifiersDense` | mapper/cchainatomictx/tx_parser.go:51-199 | operation i has identifier i, relates to smaller ones only, and credits relate to exactly the debits |
| `AtomicTx.AtomicRoundTrip` | mapper/cchainatomictx/tx_parser.go:51-189 | build then parse gives the caller's operations, rearranged, if and only if they have the shape the transaction carries and every amount is below 2^64 |
| `AtomicSigning.CombineTx` | service/backend/cchainatomictx/construction.go:297-309 | imports get one credential per input, from all signatures in order; exports one credential, of the first signature; and exactly when that fails |
| `AtomicSigning.ImportCombines` | service/backend/cchainatomictx/construction.go:297-309 | an import combines exactly with one 65-byte signature per debit, and then credential i is signature i |
| `AtomicSigning.ImportSignaturesFollowOrder` | mapper/cchainatomictx/tx_builder.go:108-137 | payload i of an import is for the owner of input i if the debits come in UTXO order, and with distinct accounts only then |
| `AtomicSigning.ImportReports` | service/backend/common/types.go:95-122 | parsing a signed import reports for each input the account of the debit that spends it |
| `AtomicSigning.ExportSignedIff` | service/backend/cchainatomictx/construction.go:304-305 | an export has as many credentials as inputs and signatures if and only if it has one debit |
| `AtomicSigning.ExportReports` | service/backend/common/types.go:95-122 | parsing a signed export reports the account of the last debit as the signer of every input |
| `AtomicSigning.ExportReportsIff` | service/backend/common/types.go:95-122 | each input of an export is reported under its own address if and only if all debits are of one account |
| `AtomicSigning.SwappedImport` | mapper/cchainatomictx/tx_builder.go:108-137 | two concrete debits out of UTXO order: the first payload, Bob's, belongs to the input Alice owns |
| `AtomicSigning.TwoDebitExport` | service/backend/cchainatomictx/construction.go:304-305 | a concrete export from two addresses: two inputs, one credential, and a wrong signer reported |
| `CallData.GenerateErc20TransferData` | service/service_construction.go:1449-1461 | method id, the address and the amount, each argument padded to 32 bytes |
| `CallData.GenerateBridgeUnwrapTransferData` | service/service_construction.go:1463-1474 | method id, the amount and the chain id, padded likewise |
| `CallData.PadKeeps` | service/service_construction.go:1453-1454 | padding keeps the value, and has the width exactly if the value fits it |
| `CallData.Erc20RoundTrip` | service/service_construction.go:1449-1487 | transfer data reads back as the address and the value modulo 2^248, as a length error from 2^256 on, and unchanged if and only if below 2^248 |
| `CallData.UnwrapRoundTrip` | service/service_construction.go:1463-1505 | unwrap data reads back, modulo 2^248, if and only if both arguments fit 32 bytes and the chain id's low 64 bits are zero |
| `CallData.Erc20DataReads` | service/service_construction.go:1476-1487 | any data: errors exactly for another length than 68 or another method id, otherwise the address in bytes 16 to 36 and the number in bytes 37 to 68 |
| `CallData.UnwrapDataReads` | service/service_construction.go:1489-1505 | any data: the same errors and a nonzero low half of the chain id, otherwise the numbers in bytes 5 to 36 and 37 to 68 |
| `CallData.CreateTransferOps` | service/service_construction.go:449-521 | two operations: a debit of the sender, index 0 and unrelated, and a credit of the receiver, index 1 and related to it, of opposite values, the receiver and value taken from the call data if there is any; fails exactly for bad data or addresses |
| `CallData.CreateTransferPayload` | service/service_construction.go:667-755 | AVAX moves as value, tokens as call data to the contract |
| `CallData.TransferRoundTrip` | service/service_construction.go:449-755 | a transfer asked for is shown as a debit of its sender and a credit of its receiver of the kind and currency asked for, whenever it is shown; of the value asked for always for AVAX, and for a token if and only if below 2^248 |
| `CallData.BurnRoundTrip` | service/service_construction.go:523-554 | a bridge burn is shown as asked for if and only if below 2^248 |
| `CallData.LargeTransferShowsNothing` | service/service_construction.go:1485 | a transfer of 2^248 units is shown as zero |
| `Balances.GetBalancesWithoutMultisig` | service/backend/pchain/account.go:293-363 | unlocked is the exact sum of the transfers no locktime holds back, not stakeable of those their own locktime does, stakeable of those only the lock around them does, and the total all of them, with an error if and only if the total exceeds 64 bits |
| `Balances.BucketsByLocktime` | service/backend/pchain/account.go:307-349 | the buckets the code chooses are those sums by locktime |
| `Balances.OneMoreOutput` | service/backend/pchain/account.go:307-349 | one more transfer, plain or behind a lock, adds its amount to exactly one of the three, by its two locktimes |
| `Balances.BucketSumPermuted` | service/backend/pchain/account.go:307-349 | the sums do not depend on the order of the UTXOs |
| `Balances.ParseAndFilterUTXOs` | service/backend/pchain/account.go:475-511 | the first entry of each id with an asked-for asset is kept unless it has several addresses; errors exactly for undecodable bytes or a first entry without addresses |
| `Balances.KeptMember` | service/backend/pchain/account.go:475-511 | which UTXOs are kept |
| `Balances.KeptDistinct` | service/backend/pchain/account.go:489-493 | no id is kept twice |
| `Balances.DuplicatesDoNotMatter` | service/backend/pchain/account.go:475-511 | the same UTXOs repeated or reordered across pages give the same kept set and the same balances |
| `Balances.FilterableIff` | service/backend/pchain/account.go:475-511 | UTXOs of equal ids being equal, the filter accepts if and only if every entry decodes and every asked-for one lists its addresses |
| `Balances.DuplicatesAcceptedTogether` | service/backend/pchain/account.go:475-511 | the same entries repeated or reordered across pages are accepted or refused together |
| `Balances.CalculateStakedAmount` | service/backend/pchain/account.go:443-473 | the stake of outputs with at most one owner, modulo 2^64, or an error exactly if an output cannot be read |
| `Balances.StakeGrows` | service/backend/pchain/account.go:443-473 | one more staked transfer, plain or behind a lock, adds its amount unless several own it |
| `Balances.StakeReadsIff` | service/backend/pchain/account.go:447-463 | a staked output can be read if and only if it decodes to a transfer, plain or behind a lock |
| `Balances.FetchBalance` | service/backend/pchain/account.go:257-288 | when a balance is given, what its parts are, and that staked amount and total are the true ones if and only if their sum fits 64 bits |
| `Balances.StakeWrapsToZero` | service/backend/pchain/account.go:443-473 | two concrete stakes of 2^63 that are reported as a balance of zero |
| `BalanceAtHeight.OwnBalanceAtHeight` | service/backend/pchain/account.go:257-441 | in every interleaving of reader, chain and peer chains, and for every page size: a balance of the chain's own coins answered for a height is given if and only if the ledger at that height can be read and summed, and holds in each bucket the exact sum over its distinct kept UTXOs, and its stake modulo 2^64 |
| `BalanceAtHeight.SharedBalanceAtHeight` | service/backend/pchain/account.go:257-441 | the same for shared memory as it was at every page read, if no block of a peer chain came between the first page and the last |
| `Rewards.GetPendingRewards` | service/backend/pchain/account.go:189-228 | the loops compute the shares of one address |
| `Rewards.FeeInRange` | service/backend/pchain/account.go:205-209 | a fee of at most 10^6 parts per million lies between zero and the reward |
| `Rewards.OneMoreDelegation` | service/backend/pchain/account.go:199-219 | one more delegation gives the validator's owners its fee, the parts per million rounded down, and its own owners the rest |
| `Rewards.OneMoreValidator` | service/backend/pchain/account.go:193-197 | one more validator gives its owners its reward and adds what its delegations give |
| `Rewards.TotalsArePaid` | service/backend/pchain/account.go:193-228 | over any list of addresses the totals add up to each reward as often as the list names its owners |
| `Rewards.RewardsConserved` | service/backend/pchain/account.go:193-228 | over distinct single owners the totals add up to exactly all validator and delegator rewards |
| `Pagination.FetchCoins` | service/backend/cchainatomictx/account.go:142-163 | the page loop ends and collects the pages, for any page size above the overlap |
| `Pagination.PageProgress` | service/backend/pchain/account.go:519-542 | a full page moves the cursor on and a short page has reached the end |
| `Pagination.ShortPagesStall` | service/backend/pchain/account.go:519-542 | with pages no longer than the overlap a full page can leave the cursor where it is |
| `Pagination.CollectedAll` | service/backend/cchainatomictx/account.go:142-163 | the pages hold all coins of the account and no others |
| `Pagination.SortUnique` | service/backend/common/account.go:14-32 | the coins sorted by id, each id once, the last of two with one id |
| `Pagination.LaterCounts` | service/backend/common/account.go:14-18 | of coins with one id the last one counts |
| `Pagination.ListsUnique` | service/backend/common/account.go:14-32 | that list is unique |
| `Pagination.PageSizeIrrelevant` | service/backend/common/account.go:14-32 | whatever the page size, sorting the pages gives the server's own coins |
| `Pagination.SumCoins` | service/backend/cchainatomictx/account.go:38-50 | the exact sum, or an error exactly if it exceeds 64 bits |
| `Pagination.CollectedSum` | service/backend/cchainatomictx/account.go:38-50 | the C-chain balance adds up pages as they come: the true sum plus whatever pages repeat |
| `Pagination.OverlapIsCountedTwice` | service/backend/cchainatomictx/account.go:34-50 | two overlapping pages whose sum is too large |
| `DoubleCollect.StepKeepsInv` | service/backend/pchain/account.go:386-441 | every block of the chain or of a peer and every call of the reader keeps: heights are in range and stake read belongs to the first height unless a block came since |
| `DoubleCollect.LaterFollows` | service/backend/pchain/account.go:386-432 | from any moment under way on, ledgers only grow, and an answer means that no block of the chain came between that moment and the answer |
| `DoubleCollect.PagesFromOneListing` | service/backend/pchain/account.go:402-409 | if all pages were read from the same lists, in whatever interleaving, the coins answered are exactly those lists' pages in order |
| `DoubleCollect.OwnAnswerIsOneSnapshot` | service/backend/pchain/account.go:386-441 | in every interleaving with blocks of the chain and of its peers, an answer about the chain's own coins and stake is what the ledger at that height alone would answer |
| `DoubleCollect.SharedAnswerIsOneSnapshot` | service/backend/cchainatomictx/account.go:79-125 | an answer about shared memory is what shared memory held at every page read, all at the answered height, if no block of a peer chain came between the first page and the last |
| `DoubleCollect.SomePageRead` | service/backend/cchainatomictx/account.go:95-101 | every run that gets past its first source has read a page, so there is a moment the snapshot is of |
| `DoubleCollect.DisturbedAnswer` | service/backend/cchainatomictx/account.go:79-125 | for pages of two or more, a concrete run at one unchanged height with two peer exports between its pages: it answers with the later export and without the earlier one, a list shared memory never held |
| `DoubleCollect.PagesHoldAll` | service/backend/cchainatomictx/account.go:142-163 | over all sources the pages hold exactly the coins that are there |
| `DoubleCollect.RefusedOnlyAfterNewBlock` | service/backend/pchain/account.go:425-432 | the reader is refused only if a block was added meanwhile |

## Left out

- Identifiers, addresses and UTXO texts are numbers and constructors: bech32, CB58, hex, the Avalanche codec and Keccak are taken as injective encoders, and a coin text that is not in canonical form but still decodes is not modelled.
- Cryptography is left out: BLS proofs enter as their verdict, signatures are byte strings of the right or wrong length, and signing a built transaction only gives it its id.
- Library sorts are some sorted permutation, and the Rosetta matching library enters as its contract: debits first, each with an account, spent coins where the code asks for them.
- Operations are values: that Go shares pointers to operations and amounts between lists is not modelled.
- PchainParser.TxParser.ParseStakingTx: does not model the staker metadata (node id, times, reward owners, signer) written onto stake outputs, which is copied from the transaction and touches no amount, account or coin.
- PchainParser.TxParser.ParseRewardValidatorTx: does not model the staker metadata written onto reward operations, for the same reason.
- Receipts, gas and trace metadata are left out.
- Output indices are unbounded numbers where the code has uint32.
- A dependency without a transaction is an error in the reward parser where Go would dereference a null pointer, and operations the builders dereference are required to have coins and accounts.
- Contract information, asset descriptions and chain aliases are maps fixed while a request is served; the caches in front of them are left out.
- The token white list is the set of addresses that some entry spells, ignoring case; gas and prices are natural numbers, and an event amount is the number in the last 32 bytes of the log data.
- Rewards.RewardsConserved: the delegation fee enters as whole parts per million, where the code multiplies a float by 10000.
- The current time is a parameter of the balance sums.
- PchainRoundTrip.RoundTrip: takes from its caller what operation matching guarantees, and that debits spend distinct coins.
- ForkJoin.ResultIsDetermined: assumes that the node gives the same answer to repeated questions while one block is parsed; building the genesis allocation is a stored answer.
- PchainBlocks.FetchedBlocksRun: takes from the chain that base inputs spend what earlier transactions created, with the same asset and amount, and from the node that one id is one transaction and that reward UTXOs do not change once they are paid out; the genesis block, which is parsed without dependencies and spends nothing, is a block with an empty fetch.
- DoubleCollect.SharedAnswerIsOneSnapshot: the condition is sufficient and not necessary, because a peer's block may leave the account's coins as they are.
- DoubleCollect.OwnAnswerIsOneSnapshot: every call is answered from one state of the node, and cursors are positions in the server's order.
- Routing between back ends, offline checks, JSON marshalling, RPC plumbing, generic contract calls and the mempool are left out: they are thin, or rest on library code.
