# Offerer trade state record

A Dafny model of `Offerer`, the record the offering party keeps for one trade
of the Bitsquare trade handshake. It holds:

- four persisted protocol values: the payout transaction signature, the payout
  amount, the connected outputs of all deposit inputs, and the outputs used to
  check amounts with change outputs;
- three transient references to the offer, the wallet service and the user.
  Deserialisation leaves them null, and `onAllServicesInitialized` binds them
  once the backend services are ready;
- eight read-only getters that reach through those references.

Files and modules:

- `collaborators.dfy` (`Collaborators`): the types the record holds or reaches.
  `Coin`, `TransactionOutput`, `DeterministicKey` (here `KeyPair`), `PublicKey`
  and `FiatAccount` are opaque types. `Offer`, `WalletService`, `User` and
  `AddressEntry` are datatypes that expose only the values and lookups the
  record uses. Each lookup (`getFiatAccount(id)`, `getAddressEntry(id)`) is a
  function-typed field with no further meaning, so it stays uninterpreted.
  `OutputList` stands for a `java.util.List<TransactionOutput>`: a shared,
  mutable object. A Java `byte[]` is an `array?<JByte>`, so the record and its
  caller can share it.
- `fields.dfy` (`OffererFields`): the record's seven fields as a value
  (`Record`), the five mutators as data (`Op`), one assignment (`Step`) and a
  sequence of them (`Run`). The lemmas here cover every field and every
  sequence of calls. Each operation writes exactly its own field. A field
  nobody writes keeps its value, and the last write to a field wins. Binding
  never touches the persisted fields, and setters never touch the references.
- `offerer.dfy` (`OffererModels`): the class `Offerer` with the Java fields.
  Each mutator is proved to change the fields exactly as `Step` says. The derived getters are functions;
  `DerivedGetters` gathers all eight, each absent where the getter would
  dereference null. `Save` and the constructor `Restore` model the
  persisted/transient split, and `ResumeAfterRestart` shows that restoring and
  re-binding gives back the same persisted values and the same derived
  getters.
- `scenarios.dfy` (`OffererScenarios`): client methods that drive the record
  through its public operations. `CallAll` makes any sequence of calls on a
  live `Offerer` and proves that its fields end up as `Run` says, so the
  sequence lemmas of `OffererFields` apply to the object; `LastCallWins` uses
  this. The other scenarios cover a whole handshake with save and restore,
  aliasing of the caller's list and array, overwriting, clearing, and
  re-binding.

`Offerer.java` has none of the following guards, and the model adds none:

- an error on a second binding;
- a defensive copy in the setters;
- a write-once payout signature;
- a cross-check of the payout amount against the offer;
- locking while a snapshot is taken.

The scenarios show the resulting behaviour: a second binding replaces the
first, and the caller's list and array stay shared with the record.

A derived getter in Java throws a `NullPointerException` when a reference it
dereferences is null. The model states this as a precondition. Each getter
requires exactly the references it dereferences: `getAccountId` needs only
`user`, while `getAddressEntry` needs `walletService` and `offer`.

## Model

| member | source | states |
|---|---|---|
| `OffererModels.Offerer.constructor` | core/src/main/java/io/bitsquare/trade/protocol/trade/offerer/models/Offerer.java:66-68 | a new record has all seven fields null, so it is not bound and saves as four absent values |
| `OffererModels.Offerer.Restore` | core/src/main/java/io/bitsquare/trade/protocol/trade/offerer/models/Offerer.java:70-73 | a record restored from a snapshot saves as that same snapshot; its persisted values live in newly allocated objects and the three transient references are null; the two output lists, when present, are two distinct objects |
| `OffererModels.Offerer.OnAllServicesInitialized` | core/src/main/java/io/bitsquare/trade/protocol/trade/offerer/models/Offerer.java:76-83 | binding sets the three references to its arguments, which may be null, whatever they were before; the persisted fields and their saved contents do not change |
| `OffererModels.Offerer.SetOutputs` | core/src/main/java/io/bitsquare/trade/protocol/trade/offerer/models/Offerer.java:127-134 | the setter stores its argument itself, null included, and `GetOutputs` returns it; no other field changes; every derived getter keeps its value |
| `OffererModels.Offerer.SetPayoutTxSignature` | core/src/main/java/io/bitsquare/trade/protocol/trade/offerer/models/Offerer.java:136-143 | the setter stores the caller's array itself, with no copy and no write-once rule, and `GetPayoutTxSignature` returns it; no other field changes; every derived getter keeps its value |
| `OffererModels.Offerer.SetPayoutAmount` | core/src/main/java/io/bitsquare/trade/protocol/trade/offerer/models/Offerer.java:145-152 | the setter stores any amount, with no check against the offer, and `GetPayoutAmount` returns it; no other field changes; every derived getter keeps its value |
| `OffererModels.Offerer.SetConnectedOutputsForAllInputs` | core/src/main/java/io/bitsquare/trade/protocol/trade/offerer/models/Offerer.java:154-161 | the setter stores its argument itself and `GetConnectedOutputsForAllInputs` returns it; no other field changes; every derived getter keeps its value |
| `OffererModels.SaveIgnoresReferences` | core/src/main/java/io/bitsquare/trade/protocol/trade/offerer/models/Offerer.java:50-59 | the save holds only what the four non-transient fields refer to: two records whose persisted fields refer to the same objects save alike, whatever their references; binding leaves the save unchanged (see `OnAllServicesInitialized`) |
| `OffererModels.DerivedGettersReadOnlyReferences` | core/src/main/java/io/bitsquare/trade/protocol/trade/offerer/models/Offerer.java:90-120 | two records with the same three references agree on all eight derived getters, and on which of them are defined, whatever their persisted fields hold |
| `OffererModels.EachGetterReadsOnlyItsCollaborators` | core/src/main/java/io/bitsquare/trade/protocol/trade/offerer/models/Offerer.java:90-120 | each getter depends on no more than it dereferences: account id and peer-to-peer keys on the user; registration key and key pair on the wallet; the fiat account on the user and the offer's bank account id; the address entry and trade wallet key on the wallet and the offer's id |
| `OffererModels.ResumeAfterRestart` | core/src/main/java/io/bitsquare/trade/protocol/trade/offerer/models/Offerer.java:70-120 | restoring a record from its save and binding the same collaborators again gives a distinct record that saves alike and answers all eight derived getters alike, bound or not |
| `OffererFields.Current` | core/src/main/java/io/bitsquare/trade/protocol/trade/offerer/models/Offerer.java:127-161 | reading a field yields a value of that field's own kind, and setting a field to what its getter returns leaves the record unchanged |
| `OffererFields.StepFrame` | core/src/main/java/io/bitsquare/trade/protocol/trade/offerer/models/Offerer.java:127-161 | a mutator stores exactly its argument in its own field and leaves the other fields as they were |
| `OffererFields.RunAppend` | core/src/main/java/io/bitsquare/trade/protocol/trade/offerer/models/Offerer.java:127-161 | a sequence of calls followed by one more call is the sequence's result with that call applied |
| `OffererFields.SecondWriteWins` | core/src/main/java/io/bitsquare/trade/protocol/trade/offerer/models/Offerer.java:132-161 | two writes to the same field leave the record as the second write alone would |
| `OffererFields.DistinctWritesCommute` | core/src/main/java/io/bitsquare/trade/protocol/trade/offerer/models/Offerer.java:127-161 | writes to different fields commute |
| `OffererFields.UntouchedFieldKeepsValue` | core/src/main/java/io/bitsquare/trade/protocol/trade/offerer/models/Offerer.java:127-161 | after any sequence of calls, a field that no call writes holds its original value |
| `OffererFields.LastWriteWins` | core/src/main/java/io/bitsquare/trade/protocol/trade/offerer/models/Offerer.java:127-161 | after any sequence of calls, each field holds the argument of the last call that wrote it |
| `OffererFields.BindingKeepsPersistedFields` | core/src/main/java/io/bitsquare/trade/protocol/trade/offerer/models/Offerer.java:76-83 | any number of bindings leaves the four persisted fields as they were |
| `OffererFields.SettersKeepBinding` | core/src/main/java/io/bitsquare/trade/protocol/trade/offerer/models/Offerer.java:132-161 | any sequence of setter calls leaves the three references, and so whether the record is bound, as they were |
| `OffererFields.BoundAfterLastBinding` | core/src/main/java/io/bitsquare/trade/protocol/trade/offerer/models/Offerer.java:76-83 | after a sequence of calls, the record is bound if and only if the last binding passed three non-null references |
| `OffererScenarios.CallAll` | core/src/main/java/io/bitsquare/trade/protocol/trade/offerer/models/Offerer.java:76-161 | making the calls of any sequence on a live record, one by one, leaves its fields exactly as `Run` gives them |
| `OffererScenarios.LastCallWins` | core/src/main/java/io/bitsquare/trade/protocol/trade/offerer/models/Offerer.java:127-161 | on a live record, after any sequence of calls each field holds the argument of the last call that wrote it |
| `OffererScenarios.Populate` | core/src/main/java/io/bitsquare/trade/protocol/trade/offerer/models/Offerer.java:76-161 | on a fresh record, binding and then setting the four values gives the offer's trade key and a save holding exactly those four values |
| `OffererScenarios.Handshake` | core/src/main/java/io/bitsquare/trade/protocol/trade/offerer/models/Offerer.java:51-161 | fresh record, bind, set the four values: the trade key is the wallet's key for the offer, the save holds exactly the four values, and a restored record saves the same and is unbound |
| `OffererScenarios.OutputsListIsShared` | core/src/main/java/io/bitsquare/trade/protocol/trade/offerer/models/Offerer.java:127-134 | an output the caller appends to its own list after `setOutputs` is seen through `getOutputs`, because no copy is made |
| `OffererScenarios.SignatureArrayIsShared` | core/src/main/java/io/bitsquare/trade/protocol/trade/offerer/models/Offerer.java:136-143 | a byte the caller overwrites in its array after `setPayoutTxSignature` is seen by the getter and by a save |
| `OffererScenarios.SettersOverwriteAndClear` | core/src/main/java/io/bitsquare/trade/protocol/trade/offerer/models/Offerer.java:141-152 | a second amount or signature replaces the first, and setting the amount to null makes it absent again |
| `OffererScenarios.RebindingOverwrites` | core/src/main/java/io/bitsquare/trade/protocol/trade/offerer/models/Offerer.java:76-83 | a second binding is accepted and replaces the first, and binding a null reference leaves the record unbound |

## Left out

- Logging: the static logger and its trace calls are instrumentation only.
- `toString` only formats the fields as text.
- The Java serialisation format and `serialVersionUID`. Saving is modelled as `Save`, a snapshot of the contents of the four persisted fields. Restoring is the constructor `Restore`.
- Restore: the `IOException` and `ClassNotFoundException` that `readObject` passes on for a corrupt or incompatible stream (including a mismatched `serialVersionUID`) are not modelled; `Restore` accepts only well-formed snapshots.
- Restore: when the two output fields referred to one list, Java serialisation restores one shared list. The model restores two separate lists with equal contents.
- `TransactionOutput` is an opaque value here. Java serialisation would copy these objects, and their own mutability is not modelled.
- Collaborator state: the offer, wallet service and user are values in the model. A change inside one of them after binding cannot be observed.
- Collaborator lookups are total functions. What `WalletService.getAddressEntry` or `User.getFiatAccount` do when nothing is found, and any side effects they have, are not part of this model.
- Concurrency: the record has no locking, and none is modelled.
