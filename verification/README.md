# Verified models of the Fabric samples and the LEDGOV contract

A Dafny model of eight ledger protocols of this repository, with proofs of what they
promise over whole histories.

All contracts run over one kernel, `Fabric.dfy`. It has a versioned world state, a stub
that reads committed state only and records what a call reads, scans and writes, and a
commit rule: a transaction is accepted when its id is new, every version and range result
it saw is unchanged, and the endorsers meet the policy of every key it writes (a key in an
organization's implicit collection needs that organization). Each transaction remembers the
height it was endorsed at, so a history (`Run` in each contract) is any interleaving of
endorsements with commits. Each contract's methods are proved equal to specification
functions, and the theorems are about histories of those functions. What each call does
and when it succeeds is stated apart from these functions, in terms of its arguments and of
what the queries answer before and after.

| files | what they model |
|---|---|
| `Fabric.dfy`, `Wrappers.dfy` | the ledger rules and the contract stub |
| `CompositeKeys.dfy`, `NumberText.dfy` | the text of composite keys and of numbers |
| `HighThroughput.dfy`, `HighThroughputProofs.dfy` | a variable kept as delta rows, and as one row |
| `SecuredAgreement.dfy`, `SecuredAgreementProofs.dfy`, `SecuredAgreementEffects.dfy` | the sale of an asset between two organizations |
| `OffChainData.dfy`, `OffChainDataProofs.dfy`, `OffChainReplay.dfy` | the block listener, its checkpoints and its store |
| `SubmitJob.dfy` | the retried submit job of the REST sample |
| `ColorIndex.dfy`, `ColorIndexProofs.dfy`, `ColorIndexEffects.dfy` | assets with a hand-kept colour index |
| `Orderers.dfy` | the BFT quorum and the growth of the orderer configuration |
| `AssetContract.dfy` | assets protected by state-based endorsement |
| `Ledgov.dfy`, `LedgovProofs.dfy` | the LEDGOV payment records |

Every lemma carries `{:induction false}`: each induction is spelled out in its proof.

What turned out false of the code, with the exact condition and a counterexample:

- The listener keeps only the writes of a transaction's last non-system namespace. It keeps
  them all if and only if no other such namespace writes (`OffChainReplay.StoresAllWrites`);
  otherwise some chain ends in a state its store does not replay to
  (`OffChainReplay.DroppedWritesShowOnChain`).
- A listener that resumes after a transaction skips what lies between it and the last one
  with the same id. It resumes right if and only if the id is not empty and not repeated later in the
  block (`OffChainDataProofs.ResumesExactly`); with a copy, even an invalid one, data can be
  lost (`OffChainDataProofs.RepeatedIdLosesData`).
- An owner loses the properties behind its asset if and only if it bids for it with other
  properties or sells it to itself (`SecuredAgreementProofs.ProvenanceStep`). Both happen in
  accepted runs (`SecuredAgreementProofs.OwnersBidCanSpoil`,
  `SecuredAgreementProofs.SaleToItselfSpoils`).
- A job commits at most once as long as no attempt that starts from a saved transaction
  meets an error that is answered with a new id (`SubmitJob.AtMostOnce`). Such an error is
  safe if and only if nothing is saved (`SubmitJob.SafeExactlyWhenNothingIsSaved`): after a
  timeout the saved id may still commit, and the next error abandons it all the same
  (`SubmitJob.SavedStateCanCommitTwice`).
- A new orderer's endpoint address takes its host from the first address, not from the
  `--address` argument its consenter entry uses. The two agree if and only if the hosts are
  the same (`Orderers.ReachableOnOneHost`, `Orderers.FifthOrdererElsewhere`).

## Model

| member | source | states |
|---|---|---|
| `Fabric.FreshWorldsAgree` | fabric-samples/asset-transfer-ledger-queries/chaincode-go/asset_transfer_ledger_chaincode.go:231-238 | A transaction whose read versions and re-run range queries are unchanged sees at its commit, entry for entry, what its endorsers saw, whatever was committed in between. |
| `Fabric.OrderCommits` | fabric-samples/high-throughput/chaincode-go/high-throughput.go:6-16 | Offering a block of transactions in order only ever appends accepted ones, so every chain so built is a valid history. |
| `Fabric.EntryOrigin` | fabric-samples/high-throughput/chaincode-go/high-throughput.go:6-16 | An entry of the world was written by the transaction its version names and has stood unchanged since. |
| `Fabric.Stub.GetState` | chaincode-ledgov/vendor/github.com/hyperledger/fabric-chaincode-go/shim/stub.go:161-165 | A read comes from the committed world, never from the transaction's own writes, and is recorded. |
| `Fabric.Stub.GetStateByRange` | chaincode-ledgov/vendor/github.com/hyperledger/fabric-chaincode-go/shim/stub.go:420-433 | A range query delivers each matching committed key once, plain keys in key order, and is recorded with the versions it saw. |
| `CompositeKeys.CreateCompositeKey` | chaincode-ledgov/vendor/github.com/hyperledger/fabric-chaincode-go/shim/stub.go:455-467 | The key text is every part ended by U+0000 after a leading U+0000, or nothing when a part has a reserved character. |
| `CompositeKeys.CompositeKeyText` | chaincode-ledgov/vendor/github.com/hyperledger/fabric-chaincode-go/shim/stub.go:455-467 | The text character by character: U+0000, then each part followed by U+0000; no text exactly when a part contains U+0000 or U+10FFFF. |
| `CompositeKeys.SplitCompositeKey` | chaincode-ledgov/vendor/github.com/hyperledger/fabric-chaincode-go/shim/stub.go:469-479 | The loop computes the object type and the attributes of a key text, and fails, as the source panics, on a text without U+0000 after its first character. |
| `CompositeKeys.SplitsExactly` | chaincode-ledgov/vendor/github.com/hyperledger/fabric-chaincode-go/shim/stub.go:469-479 | Splitting any text loses only its first character, the separators and what follows the last of them. |
| `CompositeKeys.SplitUndoesJoin` | chaincode-ledgov/vendor/github.com/hyperledger/fabric-chaincode-go/shim/stub.go:469-479 | Splitting the joined parts gives back the parts, none lost, merged or added. |
| `CompositeKeys.SplitUndoesCreate` | chaincode-ledgov/vendor/github.com/hyperledger/fabric-chaincode-go/shim/stub.go:455-479 | Round trip: a created key splits into its object type and its attributes again. |
| `CompositeKeys.CompositeKeysDiffer` | chaincode-ledgov/vendor/github.com/hyperledger/fabric-chaincode-go/shim/stub.go:455-467 | Distinct composite keys have distinct texts, all starting with U+0000. |
| `CompositeKeys.PartialQueryIsExact` | chaincode-ledgov/vendor/github.com/hyperledger/fabric-chaincode-go/shim/stub.go:286-295 | The text range a partial key query scans holds exactly the keys of that index whose first attributes are the queried ones: no other index, no attribute that merely starts alike. |
| `NumberText.DecimalIsLawful` | fabric-samples/high-throughput/chaincode-go/high-throughput.go:64-70 | Decimal text reads back as the number it was written from and can be part of a composite key. |
| `HighThroughput.Update` | fabric-samples/high-throughput/chaincode-go/high-throughput.go:62-90 | A valid update blindly writes one row keyed by name, sign, delta and transaction id and reads nothing; each invalid argument gives its error. |
| `HighThroughput.Get` | fabric-samples/high-throughput/chaincode-go/high-throughput.go:100-149 | The loop answers with the signed sum over all rows of the variable, in whatever order they come, or with the error for no rows or an unreadable one. |
| `HighThroughput.Prune` | fabric-samples/high-throughput/chaincode-go/high-throughput.go:159-222 | Records exactly: all rows of the variable deleted and one row of their sum written. |
| `HighThroughput.Delete` | fabric-samples/high-throughput/chaincode-go/high-throughput.go:230-257 | Records exactly the deletion of all rows of the variable. |
| `HighThroughput.UpdateStandard` | fabric-samples/high-throughput/chaincode-go/high-throughput.go:263-293 | Reads the row (absent or empty is zero), adds or subtracts, and writes it back; each failure leaves its error. |
| `HighThroughput.GetStandard` | fabric-samples/high-throughput/chaincode-go/high-throughput.go:295-306 | Answers with the stored number, or an error when there is none. |
| `HighThroughput.DelStandard` | fabric-samples/high-throughput/chaincode-go/high-throughput.go:309-315 | Deletes the single row without reading it. |
| `HighThroughput.TotalTakes` | fabric-samples/high-throughput/chaincode-go/high-throughput.go:112-145 | The sum over a set of rows is the same whichever row is taken first. |
| `HighThroughputProofs.AcceptedIsAtomic` | fabric-samples/high-throughput/chaincode-go/high-throughput.go:6-16 | An accepted call does what running it alone at its commit would do, although it was endorsed earlier. |
| `HighThroughputProofs.StaysTidy` | fabric-samples/high-throughput/chaincode-go/high-throughput.go:62-222 | Every accepted call keeps the rows readable and stamped with the id of a committed transaction. |
| `HighThroughputProofs.PruneLeavesOneRow` | fabric-samples/high-throughput/chaincode-go/high-throughput.go:159-222 | A Prune leaves its variable exactly one row, worth the old sum, and other variables' rows alone. |
| `HighThroughputProofs.HistoryHolds` | fabric-samples/high-throughput/chaincode-go/high-throughput.go:62-258 | Over every interleaving of endorsements and commits, the rows of a variable add up to its serial value, or there are none. |
| `HighThroughputProofs.GetIsSerialValue` | fabric-samples/high-throughput/chaincode-go/high-throughput.go:62-258 | Conservation: Get answers with the value of the committed updates and deletes taken one after the other, however Prunes race Updates. |
| `HighThroughputProofs.ValueIsSumSinceClear` | fabric-samples/high-throughput/chaincode-go/high-throughput.go:62-258 | That serial value is the sum of what was added since the last Delete, and absent if nothing was. |
| `HighThroughputProofs.GetIsSumSinceDelete` | fabric-samples/high-throughput/chaincode-go/high-throughput.go:62-258 | Get answers exactly the signed sum of the updates committed since the last committed Delete, each counted once, and fails exactly when there are none. |
| `HighThroughputProofs.SumIgnoresOrder` | fabric-samples/high-throughput/chaincode-go/high-throughput.go:100-149 | The sum depends on the bag of updates, not on their order. |
| `HighThroughputProofs.OrderDoesNotShow` | fabric-samples/high-throughput/chaincode-go/high-throughput.go:62-258 | Two histories with the same bag of updates since the last Delete give the same answer, whatever their order, pruning and interleaving. |
| `HighThroughputProofs.GetStandardIsSerialValue` | fabric-samples/high-throughput/chaincode-go/high-throughput.go:263-315 | In any history GetStandard answers with the accepted single-row updates run serially in commit order. |
| `HighThroughputProofs.StartsFromZero` | fabric-samples/high-throughput/chaincode-go/high-throughput.go:269-275 | An update of an absent or empty row starts from zero. |
| `HighThroughputProofs.FormsAgree` | fabric-samples/high-throughput/chaincode-go/high-throughput.go:100-315 | Refinement: the delta-row form, with Prunes anywhere, and the single-row form agree on whether the variable exists and on its value. |
| `HighThroughputProofs.UpdatesNeverConflict` | fabric-samples/high-throughput/chaincode-go/high-throughput.go:62-90 | A whole block of Updates, endorsed at any earlier heights, is accepted. |
| `HighThroughputProofs.OnlyOneStandardUpdate` | fabric-samples/high-throughput/chaincode-go/high-throughput.go:263-293 | Of a block of single-row updates of one variable endorsed at the same height, exactly the first is accepted. |
| `HighThroughputProofs.AnswersFollowEachCall` | fabric-samples/high-throughput/chaincode-go/high-throughput.go:62-315 | Every committed call changes the numbers Get and GetStandard answer exactly so: plus adds its delta, minus takes its delta away, a delete ends the variable, anything else leaves them. |
| `HighThroughputProofs.SucceedsExactlyWhen` | fabric-samples/high-throughput/chaincode-go/high-throughput.go:62-315 | In every history a call succeeds exactly when its number, operator and key parts are in order and what it prunes or deletes exists; no stored row is ever in the way. |
| `HighThroughputProofs.AcceptedAtOnce` | fabric-samples/high-throughput/chaincode-go/high-throughput.go:62-315 | And such a call, endorsed at the current height, is accepted whoever endorses it. |
| `SecuredAgreement.CreateAsset` | fabric-samples/asset-transfer-secured-agreement/chaincode-go/asset_transfer.go:47-108 | Without looking whether the asset exists, writes it with the client as owner, sets the owner's policy and stores the properties, on the client's own peers only. |
| `SecuredAgreement.ChangePublicDescription` | fabric-samples/asset-transfer-secured-agreement/chaincode-go/asset_transfer.go:111-135 | Rewrites the description for the owner only, leaving owner and policy. |
| `SecuredAgreement.AgreeToPrice` | fabric-samples/asset-transfer-secured-agreement/chaincode-go/asset_transfer.go:198-233 | Stores the price bytes as given under the agreement key in the caller's own collection. |
| `SecuredAgreement.AgreeToSell` | fabric-samples/asset-transfer-secured-agreement/chaincode-go/asset_transfer.go:138-161 | Records the ask of the owner, on the owner's peers. |
| `SecuredAgreement.AgreeToBuy` | fabric-samples/asset-transfer-secured-agreement/chaincode-go/asset_transfer.go:164-195 | Stores the properties the buyer supplies, unchecked, and its bid. |
| `SecuredAgreement.VerifyAssetProperties` | fabric-samples/asset-transfer-secured-agreement/chaincode-go/asset_transfer.go:238-287 | Compares the hash of the given properties with the owner's stored hash and with the asset id, with each failure's error in order. |
| `SecuredAgreement.VerifyTransferConditions` | fabric-samples/asset-transfer-secured-agreement/chaincode-go/asset_transfer.go:333-425 | Finds the first transfer condition that fails, and records the four private entries it looked at. |
| `SecuredAgreement.TransferAssetState` | fabric-samples/asset-transfer-secured-agreement/chaincode-go/asset_transfer.go:427-512 | Records exactly: new owner and policy, seller's properties, ask and bid deleted, two receipts written. |
| `SecuredAgreement.TransferAsset` | fabric-samples/asset-transfer-secured-agreement/chaincode-go/asset_transfer.go:291-330 | Transfers if and only if price, owner, properties, ask and bid all agree, and otherwise reports the first objection. |
| `SecuredAgreement.ReadAsset` | fabric-samples/asset-transfer-secured-agreement/chaincode-go/asset_transfer_queries.go:29-45 | Reads the public asset or reports why it cannot. |
| `SecuredAgreement.QueryAgreementsByType` | fabric-samples/asset-transfer-secured-agreement/chaincode-go/asset_transfer_queries.go:110-140 | Lists the agreements of one type in the caller's own collection, each once with the asset id, price and trade id stored in it, or fails when one cannot be read. |
| `SecuredAgreementProofs.AcceptedIsAtomic` | fabric-samples/asset-transfer-secured-agreement/chaincode-go/asset_transfer.go:291-330 | An accepted call has, on every endorser's peer, the outcome it would have at its commit. |
| `SecuredAgreementProofs.StaysSound` | fabric-samples/asset-transfer-secured-agreement/chaincode-go/asset_transfer.go:47-512 | Every accepted call keeps: id equals key, policy exactly the owner, and an ask only in the current owner's collection. |
| `SecuredAgreementProofs.HistoryIsSound` | fabric-samples/asset-transfer-secured-agreement/chaincode-go/asset_transfer.go:92-105 | That invariant holds over every history from an empty ledger. |
| `SecuredAgreementProofs.SaleAgreementsAreItsOwn` | fabric-samples/asset-transfer-secured-agreement/chaincode-go/asset_transfer_queries.go:101-140 | What an organization is told it has for sale is exactly its asks, each for an asset it owns now. |
| `SecuredAgreementProofs.RecreatedByOwnerOnly` | fabric-samples/asset-transfer-secured-agreement/chaincode-go/asset_transfer.go:47-108 | A second CreateAsset with the same properties is accepted only from the current owner, so it never takes the asset away. |
| `SecuredAgreementProofs.OwnerChangesBySaleOnly` | fabric-samples/asset-transfer-secured-agreement/chaincode-go/asset_transfer.go:138-233 | Sale safety over whole runs: the owner changes only by its own TransferAsset, resting on an ask it recorded since it became owner and a standing bid of the buyer, both of exactly the submitted price bytes. |
| `SecuredAgreementProofs.OwnedForever` | fabric-samples/asset-transfer-secured-agreement/chaincode-go/asset_transfer.go:427-447 | Once created, an asset always has an owner. |
| `SecuredAgreementProofs.TransferConsumes` | fabric-samples/asset-transfer-secured-agreement/chaincode-go/asset_transfer.go:452-473 | A committed transfer leaves neither its ask nor its bid behind. |
| `SecuredAgreementProofs.AgreementsServeOnce` | fabric-samples/asset-transfer-secured-agreement/chaincode-go/asset_transfer.go:452-473 | A later transfer of the asset rests on an ask recorded after the earlier transfer and on a different bid. |
| `SecuredAgreementProofs.ProvenanceStep` | fabric-samples/asset-transfer-secured-agreement/chaincode-go/asset_transfer.go:164-195 | The owner goes on holding properties that hash to the id if and only if the call is neither the owner's bid with other properties nor a sale to itself. |
| `SecuredAgreementProofs.ProvenanceKept` | fabric-samples/asset-transfer-secured-agreement/chaincode-go/asset_transfer.go:345-370 | Over any run without such calls, the current owner of every asset holds properties that hash to the asset id. |
| `SecuredAgreementProofs.VerifiesExactly` | fabric-samples/asset-transfer-secured-agreement/chaincode-go/asset_transfer.go:238-287 | Then VerifyAssetProperties accepts the properties behind the id and no others, and these are the ones the owner stores. |
| `SecuredAgreementProofs.OwnersBidCanSpoil` | fabric-samples/asset-transfer-secured-agreement/chaincode-go/asset_transfer.go:164-195 | A two-transaction run in which the owner's own bid with other properties is accepted and provenance is lost. |
| `SecuredAgreementProofs.SaleToItselfSpoils` | fabric-samples/asset-transfer-secured-agreement/chaincode-go/asset_transfer.go:452-473 | Any history in which an asset has provenance goes on with three accepted calls of its owner, an ask, a bid with the right properties and the sale to itself, that leave it the owner without the properties. |
| `SecuredAgreementProofs.NewAssetCanBeSpoilt` | fabric-samples/asset-transfer-secured-agreement/chaincode-go/asset_transfer.go:427-473 | A four-transaction run from an empty ledger: create, ask, bid, sale to itself, and the owner's properties are gone. |
| `SecuredAgreementEffects.EachCallFollows` | fabric-samples/asset-transfer-secured-agreement/chaincode-go/asset_transfer.go:47-512 | Every committed call, whenever endorsed, does exactly what it says to every public asset, description included, and to every private value of every organization, and leaves the rest. |
| `SecuredAgreementEffects.TransfersExactlyWhen` | fabric-samples/asset-transfer-secured-agreement/chaincode-go/asset_transfer.go:333-425 | A sale succeeds if and only if the caller owns the asset, both sides hold the same properties, ask and bid are both the submitted bytes, these can be read, and the keys are lawful; the buyer may be anyone. |
| `SecuredAgreementEffects.FailsForTheFirst` | fabric-samples/asset-transfer-secured-agreement/chaincode-go/asset_transfer.go:47-425 | In every history each call fails for the first of its reasons that holds, told from owner, properties, ask and bid, and succeeds when none does. |
| `SecuredAgreementEffects.VerdictIs` | fabric-samples/asset-transfer-secured-agreement/chaincode-go/asset_transfer.go:238-287 | What VerifyAssetProperties answers about any properties, from the owner and what it holds. |
| `SecuredAgreementEffects.AgreementsAreRead` | fabric-samples/asset-transfer-secured-agreement/chaincode-go/asset_transfer_queries.go:110-140 | A listed agreement is read from the bytes its organization stored. |
| `SecuredAgreementEffects.SaleAcceptedExactlyFromBoth` | fabric-samples/asset-transfer-secured-agreement/chaincode-go/asset_transfer.go:427-473 | Endorsed at the current height, a sale is accepted if and only if seller and buyer are both among its endorsers. |
| `SecuredAgreementEffects.SaleGoesThrough` | fabric-samples/asset-transfer-secured-agreement/chaincode-go/asset_transfer.go:291-330 | Once both agree, the owner's transfer to another organization is accepted and leaves the buyer the owner, holding the properties, which the seller no longer has. |
| `SecuredAgreementEffects.OwnerCanSell` | fabric-samples/asset-transfer-secured-agreement/chaincode-go/asset_transfer.go:138-330 | From any history, an owner with its properties sells to any other organization in three calls: ask, bid, transfer. |
| `SecuredAgreementEffects.NewAssetCanBeSold` | fabric-samples/asset-transfer-secured-agreement/chaincode-go/asset_transfer.go:47-330 | A run from an empty ledger: created by one organization, sold to another, provenance kept. |
| `OffChainData.OffChainStore.SimulateFailureIfRequired` | fabric-samples/off_chain_data/application-go/store.go:40-49 | Fails and resets the count when the failure count is positive and reached, otherwise counts one more. |
| `OffChainData.OffChainStore.Persist` | fabric-samples/off_chain_data/application-go/store.go:65-80 | Appends one chunk, or nothing when the process dies first. |
| `OffChainData.OffChainStore.WriteUpdate` | fabric-samples/off_chain_data/application-go/store.go:27-38 | The simulated failure comes before the append. |
| `OffChainData.TransactionProcessor.WritesOf` | fabric-samples/off_chain_data/application-go/listen.go:255-272 | The loop leaves the writes of the last non-system namespace: each namespace's writes replace those before. |
| `OffChainData.TransactionProcessor.NewWritesOf` | fabric-samples/off_chain_data/application-go/listen.go:297-310 | One write for each key-value write, in order. |
| `OffChainData.TransactionProcessor.Process` | fabric-samples/off_chain_data/application-go/listen.go:230-253 | Stores the transaction's writes unless there are none. |
| `OffChainData.BlockProcessor.FindLastProcessedIndex` | fabric-samples/off_chain_data/application-go/listen.go:192-222 | The loop finds the last transaction with the checkpointed id, if any. |
| `OffChainData.BlockProcessor.GetNewTransactions` | fabric-samples/off_chain_data/application-go/listen.go:172-190 | All transactions when no id is checkpointed, else those after the last match, else an error. |
| `OffChainData.BlockProcessor.ValidTransactions` | fabric-samples/off_chain_data/application-go/listen.go:157-170 | The valid ones of the new transactions, in order. |
| `OffChainData.BlockProcessor.Process` | fabric-samples/off_chain_data/application-go/listen.go:126-155 | Each valid new transaction is stored and then checkpointed, and the block last, stopping at the first failure or kill. |
| `OffChainData.Listen` | fabric-samples/off_chain_data/application-go/listen.go:19-82 | The loop over blocks from the checkpointed one computes the process's whole effect on store and checkpoint. |
| `OffChainDataProofs.ResumesExactly` | fabric-samples/off_chain_data/application-go/listen.go:172-222 | Resuming after a transaction delivers exactly what follows it if and only if its id is not empty and not repeated later in the block. |
| `OffChainDataProofs.ResumesAnywhere` | fabric-samples/off_chain_data/application-go/listen.go:172-222 | For any checkpointed id: all transactions when it is empty, an error exactly when the block has no such id, and else what follows its last occurrence. |
| `OffChainDataProofs.RepeatedIdLosesData` | fabric-samples/off_chain_data/application-go/listen.go:192-222 | A valid transaction, any other, and an invalid one under the first one's id: a process killed between the first two and then restarted ends behind the block without ever storing the second. |
| `OffChainDataProofs.SessionAdvances` | fabric-samples/off_chain_data/application-go/listen.go:126-253 | One process, killed anywhere, moves the checkpoint from one position of the chain to another with the log covering every writing transaction before it. |
| `OffChainDataProofs.DeliveredAtLeastOnce` | fabric-samples/off_chain_data/application-go/listen.go:126-155 | After any processes killed anywhere, the log is the reference up to the checkpoint, perhaps with the next entry, with entries repeated only on the spot and no more of these than kills. |
| `OffChainDataProofs.DeliveredExactlyOnce` | fabric-samples/off_chain_data/application-go/store.go:27-49 | Without kills, simulated failures or not, the log is exactly the reference up to the checkpoint. |
| `OffChainDataProofs.FinishesInTime` | fabric-samples/off_chain_data/application-go/store.go:27-49 | With failure count c > 0 and N >= 1 writing transactions, ceil(N / c) processes deliver everything, each exactly once. |
| `OffChainReplay.RepeatsDoNotShow` | fabric-samples/off_chain_data/application-go/listen.go:126-155 | Replaying a log with repeats on the spot gives the same state as without. |
| `OffChainReplay.StoredAsWritten` | fabric-samples/off_chain_data/application-go/listen.go:297-310 | Each write is stored with its channel, namespace, key, deletion mark and value, in order, none left out. |
| `OffChainReplay.StoresTheLast` | fabric-samples/off_chain_data/application-go/listen.go:255-272 | In any case what is stored is the writes of the last non-system namespace, and nothing when there is none. |
| `OffChainReplay.AllWritesApply` | fabric-samples/off_chain_data/application-go/listen.go:255-310 | Applying every write outside the system chaincodes does to the state what the transaction itself does, namespace by namespace. |
| `OffChainReplay.StoresAllWrites` | fabric-samples/off_chain_data/application-go/listen.go:255-272 | The listener keeps all of a transaction's writes if and only if no non-system namespace that another one follows writes anything. |
| `OffChainReplay.DroppedWritesShow` | fabric-samples/off_chain_data/application-go/listen.go:268-268 | Otherwise, for distinct namespaces, there is a state from which the stored writes lead elsewhere than the transaction did. |
| `OffChainReplay.DroppedWritesShowOnChain` | fabric-samples/off_chain_data/application-go/listen.go:255-272 | And a well-formed chain ending in that transaction whose complete store does not replay to the state the chain leaves. |
| `OffChainReplay.ReferenceReplays` | fabric-samples/off_chain_data/application-go/listen.go:230-272 | Folding the reference log gives the state that the key-value writes of the chain's valid transactions leave. |
| `OffChainReplay.ReplayIsFaithful` | fabric-samples/off_chain_data/application-go/listen.go:126-253 | After any processes killed anywhere, replaying the store gives the on-chain state at the checkpoint or right after the next transaction that writes, and at the end of the chain the on-chain state itself. |
| `SubmitJob.Job.UpdateJobData` | fabric-samples/asset-transfer-basic/rest-api-typescript/src/jobs.ts:256-275 | A new transaction's id is appended and its state saved; without one the state is cleared and the ids kept. |
| `SubmitJob.Job.ProcessSubmitTransactionJob` | fabric-samples/asset-transfer-basic/rest-api-typescript/src/jobs.ts:112-210 | One attempt: which transaction is submitted, what is stored, whether there is a result, on every path and wherever the worker dies. |
| `SubmitJob.ErrorDecides` | fabric-samples/asset-transfer-basic/rest-api-typescript/src/errors.ts:105-159 | From an error's fields: a duplicate, by code or by an endorsement's details, or a contract error ends the job with that error; any other timeout keeps the transaction; all else clears it. |
| `SubmitJob.RunBooks` | fabric-samples/asset-transfer-basic/rest-api-typescript/src/jobs.ts:256-275 | In every run, the ids are distinct, at most one an attempt, and saved state is for the last one. |
| `SubmitJob.IdsListEverySubmission` | fabric-samples/asset-transfer-basic/rest-api-typescript/src/jobs.ts:256-275 | In every run, the list of ids only grows and holds every id ever submitted. |
| `SubmitJob.RunKeeps` | fabric-samples/asset-transfer-basic/rest-api-typescript/src/jobs.ts:137-160 | Over every run in which no attempt that started from a saved transaction met an error answered with a new id: only the id with saved state is in doubt or committed. |
| `SubmitJob.AbandonedNeverCommits` | fabric-samples/asset-transfer-basic/rest-api-typescript/src/jobs.ts:178-209 | In such a run, an id the job has moved past, or whose state it cleared, has not committed and never will. |
| `SubmitJob.AtMostOnce` | fabric-samples/asset-transfer-basic/rest-api-typescript/src/jobs.ts:137-209 | In such a run, at most one transaction of the job ever commits, and a success result means that one did. |
| `SubmitJob.DuplicateEndsTheJob` | fabric-samples/asset-transfer-basic/rest-api-typescript/src/errors.ts:105-107 | In any run, an attempt that meets a duplicate report is not one of the excluded ones, ends the job with the error and keeps what is saved, and nothing is submitted ever after. |
| `SubmitJob.SavedStateCanCommitTwice` | fabric-samples/asset-transfer-basic/rest-api-typescript/src/errors.ts:105-113 | Whatever data with a saved transaction, and whatever errors answered with the same and with a new id, there is a run to that data that meets the error and commits both ids. |
| `SubmitJob.SafeExactlyWhenNothingIsSaved` | fabric-samples/asset-transfer-basic/rest-api-typescript/src/jobs.ts:137-209 | The condition is exact: with the attempt's data and error given and no other such attempt, a double commit is possible if and only if a transaction is saved when the attempt starts. |
| `SubmitJob.ErrorAfterTimeoutCommitsTwice` | fabric-samples/asset-transfer-basic/rest-api-typescript/src/errors.ts:105-113 | For any two ids, any timeout and any error answered with a new id, a run that commits first the one and then the other. |
| `SubmitJob.NewIdNeedsSettled` | fabric-samples/asset-transfer-basic/rest-api-typescript/src/errors.ts:70-113 | Seen from the network, one attempt answered with a new id keeps the bookkeeping if and only if the old id is settled; if it is not, two more events commit twice. |
| `ColorIndex.CreateAsset` | fabric-samples/asset-transfer-ledger-queries/chaincode-go/asset_transfer_ledger_chaincode.go:114-154 | Writes the asset and its index entry, or reports that it exists or cannot be a key. |
| `ColorIndex.InitLedger` | fabric-samples/asset-transfer-ledger-queries/chaincode-go/asset_transfer_ledger_chaincode.go:440-458 | The loop creates the six assets, stopping at the first that fails. |
| `ColorIndex.ReadAsset` | fabric-samples/asset-transfer-ledger-queries/chaincode-go/asset_transfer_ledger_chaincode.go:157-173 | Reads an asset or reports why it cannot. |
| `ColorIndex.DeleteAsset` | fabric-samples/asset-transfer-ledger-queries/chaincode-go/asset_transfer_ledger_chaincode.go:176-194 | Deletes the asset and the index entry its stored colour and id name. |
| `ColorIndex.TransferAsset` | fabric-samples/asset-transfer-ledger-queries/chaincode-go/asset_transfer_ledger_chaincode.go:197-210 | Rewrites the owner of one existing asset. |
| `ColorIndex.TransferAssetByColor` | fabric-samples/asset-transfer-ledger-queries/chaincode-go/asset_transfer_ledger_chaincode.go:256-294 | The loop over index rows re-owns each asset a row names, in whatever order, or fails when a lookup does. |
| `ColorIndexProofs.HistoryIsIndexed` | fabric-samples/asset-transfer-ledger-queries/chaincode-go/asset_transfer_ledger_chaincode.go:114-210 | Over every run, every asset sits under its id and has its index entry, and every index entry has its asset. |
| `ColorIndexProofs.IndexedBothWays` | fabric-samples/asset-transfer-ledger-queries/chaincode-go/asset_transfer_ledger_chaincode.go:136-154 | The entry for a colour and an id exists if and only if the asset with that id exists and has that colour. |
| `ColorIndexProofs.ByColorNeverMissesALookup` | fabric-samples/asset-transfer-ledger-queries/chaincode-go/asset_transfer_ledger_chaincode.go:256-294 | In every reachable state a transfer by colour fails if and only if the colour cannot be a key attribute; no lookup ever fails. |
| `ColorIndexProofs.ByColorTakesExactlyTheColor` | fabric-samples/asset-transfer-ledger-queries/chaincode-go/asset_transfer_ledger_chaincode.go:231-238 | A committed transfer by colour re-owns every asset that has the colour when it commits, whenever it was endorsed, and leaves every other key and the index as they were. |
| `ColorIndexProofs.DifferentColorsCommute` | fabric-samples/asset-transfer-ledger-queries/chaincode-go/asset_transfer_ledger_chaincode.go:256-294 | Transfers of different colours never invalidate each other, and their order shows in no value. |
| `ColorIndexProofs.SameColorConflicts` | fabric-samples/asset-transfer-ledger-queries/chaincode-go/asset_transfer_ledger_chaincode.go:231-238 | A second transfer of a colour that has an asset, endorsed before the first committed, is rejected. |
| `ColorIndexEffects.EachCallFollows` | fabric-samples/asset-transfer-ledger-queries/chaincode-go/asset_transfer_ledger_chaincode.go:114-294 | Every committed call does exactly what it says to what ReadAsset answers for every id, field by field, and leaves all keys but its own as they were. |
| `ColorIndexEffects.SucceedsExactlyWhen` | fabric-samples/asset-transfer-ledger-queries/chaincode-go/asset_transfer_ledger_chaincode.go:114-294 | Over every history a call succeeds if and only if the assets it needs exist, those it creates do not, and its arguments can be keys. |
| `ColorIndexEffects.AcceptedAtOnce` | fabric-samples/asset-transfer-ledger-queries/chaincode-go/asset_transfer_ledger_chaincode.go:114-294 | And such a call, endorsed at the current height, is accepted whoever endorses it. |
| `Orderers.CalculateBftQuorum` | fabric-samples/test-network/scripts/add_new_orderer_to_config.py:43-45 | The computed size is the least majority of n + f, and at most n - f for n >= 1. |
| `Orderers.QuorumIsLeast` | fabric-samples/test-network/scripts/add_new_orderer_to_config.py:43-45 | Quorum theorem: any two sets of a size share more than f orderers if and only if the size is at least the computed one. |
| `Orderers.ToleratedIsMost` | fabric-samples/test-network/scripts/add_new_orderer_to_config.py:43-45 | Some size that the non-faulty can muster has that property if and only if no more than f = (n - 1) / 3 rounded down may be faulty. |
| `Orderers.Disk.UpdateConfig` | fabric-samples/test-network/scripts/add_new_orderer_to_config.py:48-91 | Reads the configuration and the three certificate files, and writes exactly the extended one to the new file, or reports the first failure and leaves every file alone. |
| `Orderers.SplitsExactlyAddresses` | fabric-samples/test-network/scripts/add_new_orderer_to_config.py:54-54 | An address splits in two, into host and port, if and only if it is a host, one colon and a port. |
| `Orderers.GrowthKeepsForm` | fabric-samples/test-network/scripts/add_new_orderer_to_config.py:56-88 | Any number of additions keeps the four lists in step, rule i signed by identity i, consenters numbered from 1 with the identity of their place, and the threshold the quorum, at most n; an addition fails only for its address. |
| `Orderers.EachAdditionEnters` | fabric-samples/test-network/scripts/add_new_orderer_to_config.py:54-86 | After any additions, each orderer's certificates, identity, host, port, number and rule are in its place as its addition gave them, the rest copied from the first entries. |
| `Orderers.FailsExactlyFor` | fabric-samples/test-network/scripts/add_new_orderer_to_config.py:54-79 | An addition fails exactly for an address that is not host, colon and port, or else for the first list it would copy from that is empty. |
| `Orderers.GrownIsSafeAndLive` | fabric-samples/test-network/scripts/add_new_orderer_to_config.py:70-75 | However many were added, any two signer sets that meet the block validation rule share a non-faulty orderer, and the non-faulty ones meet it. |
| `Orderers.ReachableOnOneHost` | fabric-samples/test-network/scripts/add_new_orderer_to_config.py:59-59 | Addresses keep agreeing with consenters if and only if every new orderer is on the host of the first address, since the address takes its host from there. |
| `Orderers.OtherHostSeparates` | fabric-samples/test-network/scripts/add_new_orderer_to_config.py:59-59 | From any configuration whose addresses and consenters agree, one addition on another host is accepted and ends the agreement. |
| `Orderers.FifthOrdererElsewhere` | fabric-samples/test-network/bft-config/configtx.yaml:278-306 | So does any fifth orderer on another host in the four-orderer configuration of the test network: its consenter names its own host, its address the first one's. |
| `AssetContract.CreateAsset` | fabric-samples/asset-transfer-sbe/chaincode-typescript/src/assetContract.ts:14-34 | Creates a new asset owned by the client's organization, with that organization as the key's policy. |
| `AssetContract.ReadAsset` | fabric-samples/asset-transfer-sbe/chaincode-typescript/src/assetContract.ts:38-46 | Reads an existing asset or reports that there is none. |
| `AssetContract.UpdateAsset` | fabric-samples/asset-transfer-sbe/chaincode-typescript/src/assetContract.ts:51-58 | Rewrites the value only. |
| `AssetContract.DeleteAsset` | fabric-samples/asset-transfer-sbe/chaincode-typescript/src/assetContract.ts:63-70 | Deletes an existing asset. |
| `AssetContract.TransferAsset` | fabric-samples/asset-transfer-sbe/chaincode-typescript/src/assetContract.ts:76-88 | Rewrites owner and owner organization under the given id, and sets the policy under the asset's own id. |
| `AssetContract.SetStateBasedEndorsement` | fabric-samples/asset-transfer-sbe/chaincode-typescript/src/assetContract.ts:103-107 | Asks for the owner's endorsement of the next write. |
| `AssetContract.HistoryIsSealed` | fabric-samples/asset-transfer-sbe/chaincode-typescript/src/assetContract.ts:14-107 | Over every run each asset sits under its own id and its key's policy is exactly its owner organization. |
| `AssetContract.AssetStep` | fabric-samples/asset-transfer-sbe/chaincode-typescript/src/assetContract.ts:14-88 | Every committed call does to the asset it names exactly what it says at its place in the history, touches no other, and was endorsed by the organization that owned the asset just before. |
| `AssetContract.SucceedsExactlyWhen` | fabric-samples/asset-transfer-sbe/chaincode-typescript/src/assetContract.ts:14-99 | A call succeeds if and only if it creates an asset that is not there or is about one that is. |
| `AssetContract.AcceptedExactlyFromOwner` | fabric-samples/asset-transfer-sbe/chaincode-typescript/src/assetContract.ts:101-107 | Endorsed at the current height, a call is accepted if and only if the organization owning its asset, where there is one, is among the endorsers. |
| `AssetContract.NothingWithoutTheOwner` | fabric-samples/asset-transfer-sbe/chaincode-typescript/src/assetContract.ts:101-107 | While the owning organization endorses nothing, its asset stays exactly as it is, whatever is submitted. |
| `Ledgov.FirstNonEmpty` | chaincode-ledgov/ledgov.go:67-75 | The loop returns the first non-empty value, or the empty one. |
| `Ledgov.Target.UnmarshalJSON` | chaincode-ledgov/ledgov.go:42-65 | Fills in every field from its present or legacy name, and leaves the target alone when the data has a wrong type. |
| `Ledgov.LegacyNamesRecover` | chaincode-ledgov/ledgov.go:24-65 | Round trip: a record reads back as it was, whichever of its fields are stored under legacy names. |
| `Ledgov.TodaysNamesWin` | chaincode-ledgov/ledgov.go:42-65 | Where several are present, the present field wins unless it is empty or zero, then the legacy ones in their order; the signature has two. |
| `Ledgov.FailsExactlyOnWrongType` | chaincode-ledgov/ledgov.go:42-46 | A stored object cannot be read exactly when a field the payload lists holds a value of another type. |
| `Ledgov.NullIsMissing` | chaincode-ledgov/ledgov.go:42-46 | A null field, or one the payload does not list, counts as missing. |
| `Ledgov.RecordTransaction` | chaincode-ledgov/ledgov.go:82-134 | Each check in its order, with its error, and otherwise exactly one record written under a key read as absent. |
| `Ledgov.GetTransaction` | chaincode-ledgov/ledgov.go:137-155 | Reads and decodes one record or reports why it cannot. |
| `Ledgov.ListAllTransactions` | chaincode-ledgov/ledgov.go:158-184 | The loop decodes every record in key order, or fails when one cannot be decoded. |
| `LedgovProofs.RecordsExactlyTheAdmissible` | chaincode-ledgov/ledgov.go:92-133 | A payment is recorded if and only if its amount reads as a finite positive number, commitment number, hash and id are not empty, and the id is not taken. |
| `LedgovProofs.FailsForTheFirst` | chaincode-ledgov/ledgov.go:92-133 | Otherwise it fails for the first reason in the source's order, infinite and NaN amounts included. |
| `LedgovProofs.AcceptedAtOnce` | chaincode-ledgov/ledgov.go:92-133 | Such a payment, endorsed at the current height, is accepted whoever endorses it. |
| `LedgovProofs.AppendOnly` | chaincode-ledgov/ledgov.go:109-133 | From any ledger on, no record, inherited or committed, is ever altered or removed. |
| `LedgovProofs.RecordedOnce` | chaincode-ledgov/ledgov.go:109-115 | Each id is recorded at most once, and never one the ledger started with, whatever was endorsed concurrently. |
| `LedgovProofs.ReadsBack` | chaincode-ledgov/ledgov.go:92-155 | A committed payment reads back ever after with every field as the call gave it and the amount its text reads as, which is positive. |
| `LedgovProofs.StoredForm` | chaincode-ledgov/ledgov.go:117-133 | What is stored ever after: each argument of the call under its present field name. |
| `LedgovProofs.InheritedReadsBack` | chaincode-ledgov/ledgov.go:24-65 | A record the ledger started with, under any mix of present and legacy names, reads back ever after with its fields. |
| `LedgovProofs.ListIsTheHistory` | chaincode-ledgov/ledgov.go:158-184 | The list has every inherited record and every committed payment exactly once and nothing else, in key order, each with its original fields. |
| `LedgovProofs.KeyOrderIsUnique` | chaincode-ledgov/ledgov.go:158-184 | Key order leaves only one possible list. |

## Left out

- Floating point: amounts are exact integers in the high-throughput contract, read and written through any codec that reads back what it wrote; rounding, NaN and infinities there are not modelled. LEDGOV amounts are reals, and its NaN and infinite inputs are modelled.
- SHA-256 is any collision-free hash, and JSON encoding is taken as datatypes; LEDGOV objects are maps from field names, matched exactly.
- Plain keys that start with U+0000, and the check that key attributes are valid UTF-8.
- Peers are taken to run the chaincode they endorse; chaincode-level endorsement policies that apply to keys without a policy of their own are not modelled.
- A private read of another organization's collection sees its hash only; where the value itself lives and how it is disseminated is not modelled.
- HighThroughput: the messages that successful calls return.
- SecuredAgreement: the price in sale receipts, which the source's unexported fields never store; asset history queries, single-price getters and the reading of transient maps beyond presence.
- OffChainData: blocks and read-write sets that cannot be parsed, errors from the file system, and the wrap-around of the write counter. The store append is one atomic step, and the checkpoint file is taken to hold what was last saved.
- SubmitJob: error messages are abstracted to an error class, a transaction code and endorsement details; the queue's backoff and its limit on attempts, which only shortens runs, are not modelled.
- SubmitJob.AtMostOnce: excludes attempts from a saved transaction that meet an error answered with a new id, because the code can then commit twice, as SubmitJob.SafeExactlyWhenNothingIsSaved shows. Of the network it assumes that it never commits an id twice, and that a failure the job sees, unless it is a timeout, puts nothing in doubt that was not in doubt before.
- Fabric.Stub.GetStateByRange: only the whole plain range and partial composite keys, the only queries the modelled contracts make.
- NumberText.DecimalIsLawful: whole numbers only, where the source reads and formats floats.
- ColorIndex: rich queries, pagination, history and plain range queries, which are database features.
- Orderers: the text of a certificate file stands for its base64; missing JSON members, and two orderers given the same identity, which the script does not check. Numbers are exact, where the script divides floats.
- AssetContract: the unused variant for N of several organizations, which ignores its N.
- Ledgov: the timestamp is an input of the call, so endorsers are taken to agree on it.
- The token, auction, private-data, basic, ABAC and events contracts, the JavaScript and TypeScript ports, the clients, servers and user interfaces.
