# Relation actions, transactions and tickets of lava, in Dafny

This project models the bind/unbind action layer of the lava node and
proves properties of the model. It also models two smaller cores: the
confidential-asset transaction primitives and the locked-output ticket.

- **Actions** (`action.dfy`) covers the action codec from `src/actiondb.cpp`:
  - `SerializeAction` writes a 32-bit tag, then the 20-byte key ids.
  - `UnserializeAction` reads tag 1 as a bind, tag 2 as an unbind and any
    other tag as the nil action.
  - `SignAction` and `VerifyAction` hash the serialised action together with
    the outpoint and recover the signer.
  - `DecodeAction` filters eligible transactions and scans their outputs for
    an `OP_RETURN` payload that ends in a 65-byte compact signature.
- **RelationView** (`relation_view.dfy`) models `CRelationView` as a class.
  - Its in-memory state is three fields:
    - `relationTip`: plot id to plot id, the legacy view used before POC21;
    - `relationKeyIDTip`: key id to key id;
    - `relationsHistoryMap`: key id to (height to key id).
  - The database becomes two more fields:
    - the `'P'` records, plot id to key id;
    - the `'K'` records, height to that block's list of relations.
  - Every `Write`, `Erase` and `Read` of the database may fail, and the
    model leaves its success flag nondeterministic.
- **RelationState** (`relation_state.dfy`) holds the specification functions
  that each method of the class is proved to compute.
- **RelationProperties** (`relation_properties.dfy`) holds the lemmas about
  those functions:
  - the invariant between blocks (`RelationState.Consistent`): the key tip
    agrees with the latest history entry, no history is empty and every
    recorded height is below the next block's. ConnectBlock,
    DisconnectBlock and LoadRelationFromDisk each keep it;
  - connecting a block and then disconnecting it;
  - reloading the stored relations of a block.
- **Transaction** (`transaction.dfy`) covers `src/primitives/transaction.h`:
  - `COutPoint` ordering and equality;
  - the issuance flag packed into bit 31 of the outpoint index;
  - the `IsNull`, `IsCoinBase`, `HasWitness` and `HasCAProof` predicates;
  - `ClearWitness`;
  - the flags byte of the extended serialisation format. A stream is a
    sequence of items, one per field written.
- **Tickets** (`ticket.dfy`) covers `src/ticket.cpp` and `src/ticket.h`:
  - the ticket script builder and its parser, over a script modelled as a
    list of operations;
  - the `CTicket` record.
- **Basics**, **Blob** and **Script** hold the shared pieces:
  - bytes, and the little-endian 32-bit codec;
  - 160- and 256-bit blobs, and the `memcmp` order on them;
  - script operations and `CScriptNum`, including the throw of its
    constructor on more than four bytes or a non-minimal encoding.

Cryptography, the coin view and the chain parameters become parameters:
- `Crypto` is a record of uninterpreted functions: hashing, compact
  signing, key recovery, `GetID` and `GetPlotID`.
- `ChainContext` holds the input values and the action fee.

`GetPlotID` is not assumed to be injective.

Where the code and its documentation disagree, the model follows the code:
- **A short payload throws.** `DecodeAction` calls `UnserializeAction`
  before it checks that the payload is at least 65 bytes long.
  - An `OP_RETURN` output whose payload is too short for the tag or the key
    ids makes the byte stream throw, instead of yielding the nil action.
  - So does an `OP_RETURN` output with nothing after it.
  - The throw ends `ConnectBlock` (`Actions.ShortPayloadRaises`): the
    transactions already accepted keep their effect in memory, and no
    'K' record is written for the height; before POC21 the 'P' records of
    the binds already accepted stay written.
- **Erasing while iterating.** `DisconnectBlock` erases entries of the map
  it is iterating over.
  - The model iterates over a snapshot of the identities that have an entry
    at the height.
  - It visits them in ascending key order, the order of `std::map`.

## Model

| member | source | states |
|---|---|---|
| Actions.SerializeAction | src/actiondb.cpp:47-52 | the serialised action is 4 bytes for nil, 24 for an unbind and 44 for a bind |
| Actions.UnserializeAction | src/actiondb.cpp:54-73 | fewer than 4 bytes throws; tag 1 decodes the two key ids that follow (throwing when fewer than 40 bytes follow), tag 2 one key id, any other tag is nil; bytes after the payload are ignored |
| Actions.ActionRoundTrip | src/actiondb.cpp:47-73 | decoding a serialised action followed by any suffix (such as the signature) gives the action back |
| Actions.UnknownTagIsNil | src/actiondb.cpp:58-72 | a tag other than 1 or 2 decodes to nil |
| Actions.SignAction | src/actiondb.cpp:14-27 | succeeds exactly when compact signing of hash(serialised action, outpoint) succeeds; the output is the serialised action, followed by the signature on success |
| Actions.VerifyAction | src/actiondb.cpp:29-45 | true exactly when key recovery of hash(serialised action, outpoint) succeeds, the action is not nil and the recovered key id is the action's `from` |
| Actions.SignThenVerify | src/actiondb.cpp:14-45 | for sound signatures, the signature SignAction appends verifies when the signing key is the action's `from` |
| Actions.ForeignSignatureRejected | src/actiondb.cpp:14-45 | a signature by any other key does not verify |
| Actions.Eligible | src/actiondb.cpp:78-91 | the filter: not a coinbase, not null, exactly 2 outputs, not both valued, input value minus output value equal to the action fee (DecodeAction proves it gates the scan) |
| Actions.ScanOutputs | src/actiondb.cpp:92-109 | a non-nil result, and any signature other than the incoming buffer, has exactly 65 bytes; a throw comes from a candidate whose payload fails to decode |
| Actions.ExtractedAction | src/actiondb.cpp:75-110 | DecodeAction as a function: the scan on an eligible transaction, nil with the buffer untouched otherwise (DecodeAction, ScanFindsFirst and ScanAllSkipped state its cases) |
| Actions.ScanFindsFirst | src/actiondb.cpp:92-107 | the first zero-valued output with a leading OP_RETURN and a long enough payload decides the result, and the signature is the last 65 bytes of its payload, when every earlier output is skipped |
| Actions.ScanAllSkipped | src/actiondb.cpp:92-109 | when every output is skipped the action is nil and the signature buffer is untouched |
| Actions.ShortPayloadRaises | src/actiondb.cpp:98-103 | an eligible transaction whose first OP_RETURN candidate carries fewer than 4 bytes throws |
| Actions.SignedOutputDecodes | src/actiondb.cpp:75-107 | an output carrying SignAction's bytes after OP_RETURN in an eligible transaction decodes to that action and its signature |
| Actions.DecodeAction | src/actiondb.cpp:75-110 | computes the extracted action; an ineligible transaction (coinbase, null, not exactly 2 outputs, both values nonzero, fee mismatch) gives nil; a non-nil result carries a 65-byte signature |
| RelationState.AddHistory | src/actiondb.cpp:145-155 | the entry of `from` at `height` becomes `to`; its other heights, the other identities' histories and both tips are unchanged |
| RelationState.Accept | src/actiondb.cpp:157-198 | a bind sets the key tip and the history entry, and the legacy tip only before POC21; an unbind erases the key tip entry (and the legacy one before POC21) and records the null key id; nil changes nothing |
| RelationState.RelationsFor | src/actiondb.cpp:157-198 | an accepted action appends exactly one relation: (txid, from, to) for a bind, (txid, from, null) for an unbind |
| RelationState.PlotBatch | src/actiondb.cpp:157-198 | the 'P' records of a bind before POC21 map both plot ids to their key ids, the target last; otherwise none |
| RelationState.ConnectStep | src/actiondb.cpp:203-217 | one loop iteration: a throw stops the block; a nil action or a failed verification changes nothing; otherwise Accept with one relation and one batch (RelationProperties.StepShape) |
| RelationState.ConnectTxs | src/actiondb.cpp:200-218 | the loop over the block, stopping at a throw (RelationProperties.ConnectIsAcceptAll and RaisedStays state its outcome) |
| RelationState.Truncated | src/actiondb.cpp:237-250 | exactly the history entries below the height, with their values |
| RelationState.RemoveHistory | src/actiondb.cpp:237-283 | no entry at or above the height remains; with none left the identity leaves the history and the key tip (and the legacy tip before POC21); otherwise the key tip (and before POC21 the legacy tip) takes the target of the greatest remaining height; other identities unchanged |
| RelationState.RewindAll | src/actiondb.cpp:292-297 | removeRelationHistory applied to each identity of a set, least key first (RelationProperties.RewindAllAt states its per-identity effect) |
| RelationState.Disconnect | src/actiondb.cpp:285-299 | RewindAll over exactly the identities with an entry at the height (RelationProperties.DisconnectFacts) |
| RelationState.LoadEntry | src/actiondb.cpp:309-336 | a stored relation with a non-null target sets the key tip, one with the null target erases it; the history entry is recorded either way |
| RelationState.LoadBatch | src/actiondb.cpp:309-337 | the stored relations replayed in order with LoadEntry (RelationProperties.LoadReplaysConnect relates it to ConnectBlock) |
| RelationState.ToKey | src/actiondb.cpp:121-130 | the key tip of the identity, or the null key id |
| RelationState.LegacyTo | src/actiondb.cpp:132-142 | the 'P' record of the plot the legacy tip maps to, or the null key id |
| RelationProperties.AcceptKeepsAgrees | src/actiondb.cpp:145-198 | accepting an action keeps the key tip equal to the latest history target of every identity, and keeps histories non-empty |
| RelationProperties.RemoveKeepsAgrees | src/actiondb.cpp:237-283 | removeRelationHistory keeps that agreement |
| RelationProperties.AcceptAllKeepsAgrees | src/actiondb.cpp:200-218 | a whole block of AcceptAction calls at a height no lower than any recorded one keeps the agreement, the non-empty histories and the height bound |
| RelationProperties.ConnectKeepsConsistent | src/actiondb.cpp:200-225 | ConnectBlock at the next height keeps the invariant between blocks, with the height after it next |
| RelationProperties.RewindKeepsAgrees | src/actiondb.cpp:285-299 | rewinding any set of identities keeps the agreement, the non-empty histories and every height bound |
| RelationProperties.DisconnectKeepsConsistent | src/actiondb.cpp:285-299 | DisconnectBlock of the last connected height restores the invariant between blocks with that height next |
| RelationProperties.LoadEntryKeepsAgrees | src/actiondb.cpp:310-336 | replaying one stored relation keeps the agreement, the non-empty histories and the height bound |
| RelationProperties.LoadBatchKeepsConsistent | src/actiondb.cpp:301-340 | replaying a block's stored relations keeps the invariant between blocks, with the height after it next |
| RelationProperties.ConnectIsAcceptAll | src/actiondb.cpp:200-225 | the memory ConnectBlock leaves is the accepted actions applied in order, all non-nil, one relation and one batch each |
| RelationProperties.RaisedStays | src/actiondb.cpp:200-218 | once a transaction throws, the later ones change nothing |
| RelationProperties.AcceptAllAt | src/actiondb.cpp:200-218 | after a block, an identity's entries below the height are unchanged, and it has an entry at the height exactly when it acted |
| RelationProperties.DisconnectFacts | src/actiondb.cpp:285-299 | after disconnecting a height no entry at it remains; an identity with an entry there is cut back below the height; any other identity keeps its history and its key tip |
| RelationProperties.AcceptDisconnectRoundTrip | src/actiondb.cpp:157-299 | connecting actions at a height above all recorded ones, then disconnecting it, restores every history exactly and every POC21 To() answer, and an identity with no earlier history that acted leaves the key tip |
| RelationProperties.ConnectDisconnectRoundTrip | src/actiondb.cpp:200-299 | the same round trip stated on ConnectBlock's outcome, which ends in the invariant between blocks with the height next |
| RelationProperties.LoadEntryMatchesAccept | src/actiondb.cpp:157-336 | replaying a stored relation has its action's effect, for every action but a bind to the null key id |
| RelationProperties.BindToNullReloadsAsUnbind | src/actiondb.cpp:157-336 | a bind to the null key id reloads as an unbind: the key tip entry differs, the To() answers and histories agree |
| RelationProperties.LoadReplaysConnect | src/actiondb.cpp:200-339 | when ConnectBlock did not throw, reloading the relations it gathered for the 'K' record rebuilds the memory it left, provided no accepted bind targets the null key id (after a throw nothing is recorded) |
| RelationProperties.BindThenLegacyTo | src/actiondb.cpp:121-198 | before POC21, after a bind and its 'P' records, To() on the binder's plot id is the bound key |
| RelationProperties.DisconnectSingle | src/actiondb.cpp:285-299 | disconnecting a height where one identity acted is that identity's removeRelationHistory |
| RelationProperties.BindUnbindRewind | src/actiondb.cpp:157-299 | bind at 100, unbind at 150: disconnecting 150 restores the bind state, disconnecting 100 as well forgets the identity |
| RelationProperties.UnbindBindRewindLeavesNull | src/actiondb.cpp:157-299 | unbind at 100, bind at 150, disconnect 150: the key tip keeps the identity mapped to the null key id where it had no entry before; To() and the histories agree |
| RelationView.LeastKey | src/actiondb.cpp:292-297 | the identity visited next is the least one left, in `std::map` order |
| RelationView.GreatestHeight | src/actiondb.cpp:251-270 | the greatest remaining height, which the descending sort puts first |
| RelationView.EraseFrom | src/actiondb.cpp:239-250 | the erase loop keeps exactly the entries below the height, with their values |
| RelationView.ListingOrdered | src/actiondb.cpp:342-350 | appending the least pending key keeps the listing strictly ascending |
| RelationView.RelationView.constructor | src/actiondb.cpp:116-119 | a new view starts with empty maps over the existing records |
| RelationView.RelationView.To | src/actiondb.cpp:121-143 | after POC21 the key tip of `from`, before it the 'P' record of the tip of `plotid`; the null key id when nothing is found |
| RelationView.RelationView.AddRelationHistory | src/actiondb.cpp:145-155 | the state becomes AddHistory of the old state; the records are untouched |
| RelationView.RelationView.AcceptAction | src/actiondb.cpp:157-198 | the state becomes Accept of the old state and one relation is appended; the 'P' records gain the batch exactly when the write succeeds |
| RelationView.RelationView.WriteRelationsToDisk | src/actiondb.cpp:227-230 | the 'K' record is stored under the height when the write succeeds, otherwise nothing changes |
| RelationView.RelationView.ConnectBlock | src/actiondb.cpp:200-225 | the state becomes ConnectTxs's memory; the relations are written at the height only when some action was accepted and nothing threw; the 'P' records gain the batches whose writes succeeded; the invariant between blocks is kept |
| RelationView.RelationView.RemoveRelationHistory | src/actiondb.cpp:237-283 | returns true and the state becomes RemoveHistory of the old state |
| RelationView.RelationView.DisconnectBlock | src/actiondb.cpp:285-299 | the 'K' record at the height is erased (or the erase fails) and the state becomes Disconnect of the old state; the invariant between blocks is kept |
| RelationView.RelationView.LoadRelationFromDisk | src/actiondb.cpp:301-340 | a failed read returns false with nothing changed; otherwise the stored relations are replayed in order (LoadBatch), or nothing happens when none are stored; the invariant between blocks is kept |
| RelationView.RelationView.LoadRelation | src/actiondb.cpp:310-336 | one stored relation is replayed (LoadEntry) |
| RelationView.RelationView.ListRelations | src/actiondb.cpp:342-350 | one pair per key tip entry, each equal to that entry, covering all of them, in strictly ascending key order |
| Transaction.IsNull | src/primitives/transaction.h:56 | an outpoint is null exactly when it is the default outpoint (zero hash, NULL_INDEX) |
| Transaction.Less | src/primitives/transaction.h:58-62 | `operator<`: memcmp of the hashes, then the index (its order properties are the lemmas below) |
| Transaction.Equal | src/primitives/transaction.h:64-67 | `==` holds exactly when both fields are equal, that is, on identical outpoints |
| Transaction.NotEqual | src/primitives/transaction.h:69-72 | `!=` holds exactly on different outpoints |
| Transaction.SetNull | src/primitives/transaction.h:55-56 | after SetNull the outpoint is null |
| Transaction.DefaultIsNull | src/primitives/transaction.h:42-44 | a default outpoint has index NULL_INDEX and is null |
| Transaction.LessIsLexicographic | src/primitives/transaction.h:58-62 | `<` orders by hash (memcmp) first and by index among equal hashes |
| Transaction.LessIrreflexive | src/primitives/transaction.h:58-62 | no outpoint is below itself |
| Transaction.LessTransitive | src/primitives/transaction.h:58-62 | `<` is transitive |
| Transaction.LessTrichotomous | src/primitives/transaction.h:58-72 | any two outpoints are related in exactly one way |
| Transaction.IsNullTx | src/primitives/transaction.h:471-473 | no inputs and no outputs; such a transaction is neither a coinbase nor has a witness |
| Transaction.IsCoinBase | src/primitives/transaction.h:490-493 | exactly one input, spending the default outpoint |
| Transaction.HasCAProof | src/primitives/transaction.h:517-530 | some input range proof or output surjection or range proof is non-empty (ScanHasCAProof computes it, WithoutWitness falsifies it) |
| Transaction.HasWitness | src/primitives/transaction.h:507-515 | some input witness is non-empty or HasCAProof holds (ScanHasWitness computes it) |
| Transaction.ScanHasCAProof | src/primitives/transaction.h:517-530 | the scan is true exactly when some input has an issuance or inflation range proof or some output a surjection or range proof |
| Transaction.ScanHasWitness | src/primitives/transaction.h:507-515 | the scan is true exactly when some input witness is non-empty or the transaction has a CA proof |
| Transaction.WithoutWitness | src/primitives/transaction.h:585-595 | every witness and proof emptied, lengths and all other fields unchanged, no witness and no CA proof left |
| Transaction.WithoutWitnessIdempotent | src/primitives/transaction.h:585-595 | clearing twice is clearing once |
| Transaction.MutableTransaction.ClearWitness | src/primitives/transaction.h:585-595 | the loops leave the transaction equal to WithoutWitness of the old one |
| Transaction.MaskIndex | src/primitives/transaction.h:164 | masking gives an index below 2^31, unchanged when already below |
| Transaction.SetIssuanceBit | src/primitives/transaction.h:165-167 | OR-ing in the flag sets bit 31 and keeps the masked index |
| Transaction.EncodePrevout | src/primitives/transaction.h:143-171 | the hash is kept; NULL_INDEX is written unchanged without issuance; any other index is written masked, with bit 31 set exactly when an issuance is present, which is the returned flag |
| Transaction.DecodePrevout | src/primitives/transaction.h:171-189 | the hash is kept; the index read is NULL_INDEX or below 2^31; off NULL_INDEX it is the masked index, and the issuance flag is bit 31 |
| Transaction.PrevoutRoundTrip | src/primitives/transaction.h:143-189 | decoding the encoded outpoint restores it and the issuance flag, for NULL_INDEX and every index below 2^31 but 0x7fffffff |
| Transaction.IssuanceIndexCollision | src/primitives/transaction.h:146-177 | index 0x7fffffff with an issuance is written as NULL_INDEX and read back without issuance |
| Transaction.TxFlags | src/primitives/transaction.h:376-387 | bit 0 exactly when witnesses are allowed and HasWitness holds, bit 1 exactly when allowed and the version is confidential; zero when not allowed |
| Transaction.SerializeLayout | src/primitives/transaction.h:370-415 | the dummy empty vin and the flags byte precede the inputs exactly when the flags are nonzero; nLockTime comes last |
| Transaction.SerializeTransaction | src/primitives/transaction.h:370-415 | the writer: version, optional dummy vin and flags, inputs, outputs, witnesses on bit 0, proofs on bit 1, nLockTime (SerializeLayout and the round trips state its properties) |
| Transaction.UnserializeTransaction | src/primitives/transaction.h:322-368 | the reader, with its dummy-vin detection and the refusal of flags above 3 (UnknownFlagsRejected and the round trips state its properties) |
| Transaction.UnknownFlagsRejected | src/primitives/transaction.h:362-365 | a flags byte above 3 is refused |
| Transaction.TransactionRoundTrip | src/primitives/transaction.h:322-415 | reading back what SerializeTransaction wrote yields the read-back transaction and leaves the rest of the stream unread |
| Transaction.CanonicalRoundTrip | src/primitives/transaction.h:322-415 | with witnesses allowed, a transaction whose fields the format can carry reads back unchanged |
| Transaction.NoWitnessRoundTrip | src/primitives/transaction.h:322-415 | without witnesses, such a transaction reads back as its ClearWitness copy |
| Tickets.GenerateTicketScript | src/ticket.cpp:6-11 | exactly five ops: push of the `int` lock height as a script number (which decodes back to it for every `int` but -2^31), OP_CHECKLOCKTIMEVERIFY, OP_DROP, push of the key, OP_CHECKSIG |
| Tickets.GetPublicKeyFromScript | src/ticket.cpp:13-32 | when there is a first op, its data throws as a script number exactly when it is longer than 4 bytes or not minimal; otherwise true exactly when op 1 is a number above 0, op 2 is OP_CHECKLOCKTIMEVERIFY, op 3 OP_DROP and op 4 carries 33 bytes; the key bytes are op 4's data on success and untouched on every false path |
| Tickets.TicketScriptRoundTrip | src/ticket.cpp:6-32 | parsing the script built for a 33-byte key and a positive lock height gives the key back |
| Tickets.NonPositiveLockRefused | src/ticket.cpp:18 | a lock height from -2^31 + 1 to 0 is refused without a throw and the key left untouched |
| Tickets.MinLockThrows | src/ticket.cpp:6-18 | the script built for the lock height -2^31 makes the parser throw a script-number overflow |
| Tickets.LongLockThrows | src/ticket.cpp:18 | a first push of more than 4 bytes throws, whatever follows |
| Tickets.TrailingOpsIgnored | src/ticket.cpp:18-27 | ops after the fourth do not change the outcome |
| Tickets.MissingCheckSigAccepted | src/ticket.cpp:24-27 | the generated script without its OP_CHECKSIG is still accepted |
| Tickets.StateCode | src/ticket.h:24-29 | the states are numbered 0 to 3 |
| Tickets.StateCodeInjective | src/ticket.h:24-29 | distinct states have distinct numbers |
| Tickets.Ticket.constructor | src/ticket.h:33 | a default ticket has zero hashes and empty scripts |
| Tickets.Ticket.SetValue | src/ticket.h:44-57 | all six fields are assigned and the getters return them |
| Tickets.Ticket.Serialize | src/ticket.h:59-64 | txid, n and redeemScript are written, in that order, and nothing else |
| Tickets.Ticket.Unserialize | src/ticket.h:66-71 | txid, n and redeemScript are read in that order; a missing item throws after the fields already read |
| Tickets.CopyThroughStream | src/ticket.h:59-80 | serialising one ticket into another copies txid, n and redeemScript and leaves hash, nValue and scriptPubkey of the reader unchanged |
| Script.ScriptNumRoundTrip | src/ticket.cpp:9 | a number serialised as a script number reads back as itself |
| Script.ScriptNumDecode | src/ticket.cpp:18 | `CScriptNum(vch, true)`: an overflow exactly when longer than 4 bytes, a result exactly when at most 4 bytes and minimal, and then the value the bytes encode |
| Script.ScriptNumSerializeDecodes | src/ticket.cpp:9-18 | the bytes written for any `int` other than -2^31 are minimal, fit in 4 bytes, and decode back without a throw |
| Script.MinInt32Overflows | src/ticket.cpp:9-18 | -2^31 is written as the five bytes 00 00 00 80 80, which overflow on reading |
| Blob.CompareZeroIffEqual | src/primitives/transaction.h:58-66 | the memcmp comparison is zero exactly on equal blobs |
| Basics.Int32RoundTrip | src/actiondb.cpp:49-57 | the 32-bit tag reads back as written |

## Left out

- Cryptography: hashing, `SignCompact`, `RecoverCompact`, `GetID` and `GetPlotID` are uninterpreted fields of `Crypto`. `Actions.SignThenVerify` assumes that recovery inverts signing (`SoundSignatures`).
- The coin view (`pcoinsTip->AccessCoin`) and the action fee of the consensus parameters are fields of `ChainContext`. The transaction hash used as txid is one of its functions too.
- `CTransaction::GetValueOut` is declared at src/primitives/transaction.h:479 with no body. It is modelled as a plain sum, without its money-range check, and `CAmount` overflow is not modelled.
- The database engine (LevelDB, cache sizes, paths, `fSync`) is not part of this model. Each `Write`, `WriteBatch`, `Erase` and `Read` is a map update whose success is nondeterministic.
- RelationView.RelationView.To: before POC21, a failed read of an existing 'P' record is not modelled. The map lookup is taken as the read.
- Logging (`LogPrintf`, `LogPrint`) and address encoding have no functional effect and are left out.
- `CTicketView`, `CTicket::State`, `LockTime`, `KeyID`, `Invalid` and `ComputeHash` are declared in src/ticket.h with no bodies in the core files, so they are left out. So are `DecodeTicketScript` and `GetRedeemFromScript`. The `CKeyID` overload of `GenerateTicketScript` declared at src/ticket.h:12 has no definition; the `CPubKey` one is modelled.
- Tickets.Ticket.constructor: `n` and `nValue` are indeterminate after `CTicket() = default`, so nothing is promised about them.
- `MakeBindAction` only wraps a pair in the bind variant; it is the `Bind` constructor.
- A script is a list of operations. The byte encoding of `CScript` and `GetOp`'s decoding of push lengths are not modelled. `GetOp` past the end fails with empty data. `CScriptNum`'s constructor is modelled with its default 4-byte limit and its minimal-encoding check, both of which throw.
- Tickets.GetPublicKeyFromScript: the out parameter is the raw 33 bytes. The source stores `CPubKey(vchRet)`, whose constructor is not part of this model; it marks the key invalid when the header byte is not 0x02 or 0x03, and the model does not capture that.
- Streams are sequences of items, one per field written. Compact-size prefixes and byte widths are not modelled. The confidential-asset types are opaque records, null or not.
- Transaction.UnserializeTransaction, Transaction.TransactionRoundTrip: the round trip needs some input, or some flag, when witnesses are allowed. An empty vin with flags zero is read as a dummy, so the reader then expects a flags byte.
- Transaction.PrevoutRoundTrip: excludes index 0x7fffffff, which collides with NULL_INDEX when an issuance is present (Transaction.IssuanceIndexCollision).
- RelationProperties.AcceptDisconnectRoundTrip, RelationProperties.ConnectDisconnectRoundTrip: restore the histories and the POC21 `To()` answers, not the exact key tip map. Rewinding to an unbind entry leaves `from` mapped to the null key id, where the original had no entry (RelationProperties.UnbindBindRewindLeavesNull), so ListRelations then reports that pair. The legacy plot-id tip is not restored either, because plot ids may collide.
- RelationProperties.LoadReplaysConnect: requires that no accepted bind targets the null key id. Such a bind reloads as an unbind (RelationProperties.BindToNullReloadsAsUnbind).
- RelationView.RelationView.ConnectBlock: requires every transaction of the block to have an input. The source reads `vin[0]` of every transaction that decodes to a non-nil action; the model asks it of all of them.
- RelationView.RelationView.DisconnectBlock: the source erases history entries while iterating over the same map, which is undefined behaviour in C++. The model rewinds a snapshot of the identities with an entry at the height, in ascending key order.
- RelationView.RelationView.RemoveRelationHistory: the descending sort and the `find_if` over the remaining entries are taken as the greatest remaining height. The branch where `find_if` finds nothing cannot be reached, because every remaining entry is below the height, so it is not modelled.
- Concurrency: there is none; every operation runs single-threaded.
