# secret-manager: a verified model

secret-manager is a Secret Service daemon: clients on D-Bus ask for collections ("vaults") to be
unlocked, created or deleted; each such request becomes a *prompt* with its own task and password
dialog, and a control socket lets the login and the command line lock and unlock beside it. This
project models the parts of the daemon whose correctness rests on ordering, sharing and exact
encodings, and proves what its comments and documentation promise of them.

**Prompts** (`Prompt*.dfy`, `ServiceState.dfy`). A prompt's fate is decided by whoever gets there
first: a `Prompt` call, any number of `Dismiss` calls, the spawned task, a disconnect of its owner,
a failed export. `PromptModel` is the machine of one prompt, with one step per block under the
state mutex and one per atomic operation (sequentially consistent); an aborted task may run on until
it really suspends. `PromptSystem` puts any number of prompts beside the loaded vaults and their
files, the creates on the blocking pool, the watcher that reclaims a departed client's prompts, and
everyone else who locks, unlocks, saves and loads.
`PromptInvariant`, `PromptControl`, `PromptLists`, `PromptGlobal` and `PromptRuns` prove that every
step keeps one inductive invariant; `PromptTheorems` draws the promises from it, for every run.
`PromptConsent` and `PromptAnswers` follow what dialogs, vaults and files said along a run and tie it
to what the prompt then did: no create or delete without a yes, no open without a password.
`PromptWitness` has concrete runs through the windows the protocol leaves open. `ServiceState`
is the four real tables as mutable maps, each block proved to act on its row as the machine says.

**Batched calls** (`Selection.dfy`, `Batch.dfy`, `UnlockBatch.dfy`, `LockBatch.dfy`,
`DeleteBatch.dfy`). `Unlock`, `Lock` and `DeleteItems` resolve a request once, group it by collection
and take each vault's lock once. They are proved to answer what a walk over single paths answers, and
both are proved against the request and the vaults themselves: which places of the request are
answered, which vaults change and how.

**The control socket** (`Postcard.dfy`, `Protocol.dfy`, `Messages.dfy`, `Wire.dfy`, `Unicode.dfy`).
The Postcard wire format for the field types in use, frames, the two message types, the exact bytes of
each message, and that a string on the wire is exactly a UTF-8 text.

**Vaults** (`VaultIndex.dfy`, `VaultStore.dfy`, `VaultDelete.dfy`). The searchable header index, item
writers with rollback, unlocking, key rotation, and a confirmed delete against everyone who still
holds a reference.

**Waiting** (`LockOrder.dfy`, `DaemonLocks.dfy`, `Slots.dfy`). Which guards each operation nests, that
no mix of operations can wait in a circle, and that no permit is lost under cancellation.

**Smaller pieces** (`DhGroup.dfy`, `Label.dfy`, `Escape.dfy`, `GpgText.dfy`, `GpgListing.dfy`,
`Gpg.dfy`). The session key agreement over the second Oakley group (section 6.2 of RFC 2409), the label
shown in dialogs, text escaped for the terminal, the gpg key listing and the gpg preset.

Clocks, random bytes, the answers of dialogs and the outcome of every step of a save are parameters.
Sealing is ideal: a sealed vault opens under its own key and no other; so are index digests. HKDF and
Unicode upper-casing are arbitrary functions.

Five results say that a promise does not hold as widely as one might read it, and exactly when it
does:

- A reclaim sees to every loaded collection a prompt opened unless the task it leaves alone is already
  past its last owner check (`PromptTheorems.ReclaimCovers`); `PromptWitness.LateDepartureStaysOpen`
  is a run in which the owner leaves in that window and the collection stays open with nobody to lock
  it.
- Outside that window everything a departed owner's prompt opened is locked again but for vaults that
  were no longer loaded when the record was turned into vaults to lock (`PromptTheorems.DepartedOwner`,
  `PromptTheorems.MissedWhen`); `PromptWitness.DeletedStaysOpen` is a run in which another
  client deletes the collection first and its vault is never locked.
- A reclaim leaves a create or delete alone that has claimed its gate, if the claim came before the
  reclaim loaded the gate (`PromptTheorems.ReclaimSparesClaimed`); a claim between that load and the
  abort is not seen, and `PromptWitness.ConfirmedCreateAborted` is a run in which a confirmed create
  is dropped, its file made all the same and no collection listed.
- A deleted vault file stays gone in every order of the remaining work exactly when that work does
  not hold a second delete together with something that saves: the second delete's unlink finds no
  file and un-retires the vault (`VaultDelete.DeletedStaysGone`, with `VaultDelete.Revive` the order
  that brings it back).
- A delete whose unlink fails leaves the vault exactly as it was if it was not already retired
  (`VaultStore.Vault.DeleteFile`).

## Model

| member | source | states |
|---|---|---|
| `PromptControl.StepKeeps` | src/dbus/prompt.rs:230-363 | every step of a prompt's calls, task, export and reclaim keeps who may claim, abort, finish and emit |
| `PromptControl.ResetKeeps` | src/dbus/prompt.rs:388-401 | resetting the gate before reading the dismissal flag keeps a winning `Dismiss` in force |
| `PromptControl.DismissClaimsKeeps` | src/dbus/prompt.rs:289-307 | a `Dismiss` that wins the gate takes the abort handle and leaves the task vetoed, aborted or not |
| `PromptControl.ReclaimKeeps` | src/daemon.rs:566-619 | a reclaim takes the record or leaves a task that can no longer be aborted |
| `PromptLists.StepKeeps` | src/dbus/prompt.rs:619-657 | every step keeps the record row equal to what was opened plus at most the attempt in progress |
| `PromptLists.UnrecordKeeps` | src/dbus/prompt.rs:643-655 | dropping the last occurrence after a failed open restores the record |
| `PromptGlobal.LeftTaskDuty` | src/dbus/prompt.rs:430-452 | what is open for a reclaimed prompt left to its task stays ahead of the task's own re-locking |
| `PromptGlobal.TakenTaskDuty` | src/daemon.rs:598-618 | a task whose record a reclaim took opens nothing more, so the watcher's list covers it |
| `PromptRuns.ReclaimDuty` | src/daemon.rs:566-619 | a reclaim hands every loaded collection open for the prompt to the watcher, or all of them to the task |
| `PromptRuns.RelockCalmer` | src/daemon.rs:660-674 | locking the head of the list leaves the rest of the duty on the tail |
| `PromptRuns.Reachable` | src/dbus/prompt.rs:365-657 | the invariant holds in every state any interleaving reaches |
| `PromptTheorems.RunLater` | src/dbus/prompt.rs:333-363 | over any run a decided fate is final and a `Dismiss` that won freezes what the prompt did |
| `PromptTheorems.DepartedOwner` | src/daemon.rs:555-674 | after a disconnect, unless a task it was left to had made its last owner check, nothing is open from the prompt once the task is gone and the list worked off, but for vaults its snapshot did not find loaded |
| `PromptTheorems.MissedWhen` | src/daemon.rs:612-618 | in every run a vault escapes the re-locking only at a moment its prompt's record was turned into vaults to lock, held open and not loaded then |
| `PromptTheorems.ReclaimCovers` | src/daemon.rs:586-618 | an open loaded collection is covered by a reclaim exactly when the task left alone is not past its last owner check |
| `PromptWitness.LateDepartureStaysOpen` | src/dbus/prompt.rs:430-452 | a run in which the owner leaves after that check and the collection stays open |
| `PromptWitness.DeletedStaysOpen` | src/dbus/prompt.rs:434-452 | a run in which the collection is deleted before the snapshot and its vault stays open |
| `PromptTheorems.HoldUntilLocked` | src/dbus/prompt.rs:639-642 | a prompt holds a vault from its successful open until the vault is locked |
| `PromptTheorems.RecordIsExact` | src/dbus/prompt.rs:411-419 | the record of a live prompt is what it opened and at most one more, never something found already open |
| `PromptTheorems.ReclaimTakesWhatWasOpened` | src/daemon.rs:582-618 | whenever a reclaim takes the record it is exactly what the prompt opened |
| `PromptTheorems.DismissedGoesNoFurther` | src/dbus/prompt.rs:286-401 | after a recorded dismissal no later collection is looked up, asked about or opened, whichever way the claim goes |
| `PromptTheorems.DismissWinsUnlock` | src/dbus/prompt.rs:599-603 | a `Dismiss` that wins the gate of an unlock keeps it from ever opening again in any later run |
| `PromptTheorems.NeverRearmed` | src/dbus/prompt.rs:279-286 | once a `Dismiss` is recorded on a prompt no `Prompt` call is starting, no later run ever starts its task |
| `PromptTheorems.DismissedAsksNobody` | src/dbus/prompt.rs:700-728 | once a `Dismiss` is recorded on a create or delete, whether or not it aborts the task, no later run raises the dialog or acts on an answer not already past the second look |
| `PromptTheorems.DismissAborts` | src/dbus/prompt.rs:289-310 | in every run a `Dismiss` that took the abort handle and is past using it has aborted the task, or the task was no longer running |
| `PromptTheorems.OneShotGate` | src/dbus/prompt.rs:726-731 | for create and delete the task or `Dismiss` wins, never both; a winning `Dismiss` means nothing reached the pool or the file; a winning task is neither aborted nor completed by `Dismiss` (that a winning task was confirmed is `PromptConsent.ConfirmedFirst`) |
| `PromptTheorems.DismissedTouchesNothing` | src/dbus/prompt.rs:289-310 | no later step of a create or delete whose `Dismiss` won changes a file, a vault, the collections or the pool |
| `PromptConsent.ConfirmedFirst` | src/dbus/prompt.rs:890-918 | in every run a create or delete that won its gate, reached the pool or went for the file was asked about and confirmed at an earlier step |
| `PromptConsent.ChangedOnlyOnYes` | src/dbus/prompt.rs:707-731 | in every run no step of a prompt or of its create changes a file, the collections or the pool before that yes |
| `PromptConsent.CarriedOut` | src/dbus/prompt.rs:727-948 | a create or delete that ran to its end did nothing if it was refused; a confirmed create listed what was made, or met three taken names or a failure; a confirmed delete is unlisted exactly when its file is gone, or its vault was locked or the unlink failed |
| `PromptConsent.DoneAsTold` | src/dbus/prompt.rs:932-948 | what a step told its task is what the step did: listed with a new open vault, the file gone and its vault retired, or the file kept and no vault retired, then unlisted |
| `PromptConsent.MadeNew` | src/dbus/prompt.rs:733-770 | a create told that its collection was made owes it to a step of the run that made a file where there was none |
| `PromptConsent.OwnOnly` | src/dbus/prompt.rs:935-948 | a prompt touches its own collection only: an unlock no file or listing, a create lists what was made for it, a delete its own id |
| `PromptAnswers.PinFirst` | src/dbus/prompt.rs:575-603 | a task that claims the gate for a collection or holds a key for it was given a password for that collection, at most three times |
| `PromptAnswers.CancelMeansCancel` | src/dbus/prompt.rs:421-429 | once a dialog was cancelled or never free the task looks up, asks about and opens no collection any more |
| `PromptAnswers.Accounted` | src/dbus/prompt.rs:388-452 | an unlock nobody stopped has an answer for every collection asked for, and what it counts as opened and as found open is exactly what the vaults said |
| `PromptTheorems.StrangersRefused` | src/dbus/prompt.rs:97-115 | in every reachable state a call from anyone but the prompt's own client returns at its first check and changes nothing |
| `PromptTheorems.LockedUnpinned` | src/vault/store.rs:689-694 | in every run no locked vault keeps the pin of the login that opened it |
| `PromptTheorems.ReclaimSparesClaimed` | src/daemon.rs:574-598 | a reclaim spares a create or delete that won its claim exactly when the claim came before the reclaim loaded the gate |
| `PromptWitness.ConfirmedCreateAborted` | src/daemon.rs:574-598 | a run in which a confirmed create claims between that load and the abort, hands its work to the pool and is dropped: the file is made and no collection listed |
| `PromptTheorems.OneFate` | src/dbus/prompt.rs:325-363 | exactly one of live, completed, reclaimed, withdrawn; once decided, final; `Completed` at most once |
| `PromptTheorems.NoLeak` | src/dbus/prompt.rs:240-272 | a decided prompt with no task and no call in flight is in none of the four tables |
| `ServiceState.Tables.Publish` | src/dbus/service.rs:511-515 | registration enters the owner row and nothing else |
| `ServiceState.Tables.Withdraw` | src/dbus/service.rs:526-533 | a failed export removes the owner row and nothing else |
| `ServiceState.Tables.Register` | src/dbus/prompt.rs:259-271 | handle and gate are entered under one guard |
| `ServiceState.Tables.TakeForDismiss` | src/dbus/prompt.rs:289-304 | claiming the gate and taking the handle are one block |
| `ServiceState.Tables.Finish` | src/dbus/prompt.rs:340-351 | all four rows go, and the completion is claimed exactly when the owner row was there |
| `ServiceState.Tables.Record` | src/dbus/prompt.rs:624-638 | the attempt is appended to the record |
| `ServiceState.Tables.Unrecord` | src/dbus/prompt.rs:643-655 | the last occurrence goes, and an empty record with it |
| `ServiceState.WithoutLast` | src/dbus/prompt.rs:648-650 | the element taken out is the last occurrence, and nothing is taken out if there is none |
| `ServiceState.Tables.TakeRecord` | src/dbus/prompt.rs:435-442 | the task takes its own record |
| `ServiceState.Tables.ReclaimPrompt` | src/daemon.rs:566-619 | rows, abort and the vaults handed over, as one block |
| `ServiceState.ReclaimIsStep` | src/daemon.rs:566-619 | the block does to its row and hands over what the machine's reclaim step does |
| `ServiceState.Tables.Sweep` | src/daemon.rs:631-653 | exactly the client's prompts are reclaimed, in any order; the list holds exactly the loaded vaults behind what those recorded and no task will re-lock, and the tasks aborted are exactly theirs that may be |
| `ServiceState.ReclaimAllRow` | src/daemon.rs:649-651 | reclaiming several prompts does to each row what reclaiming it alone does |
| `ServiceState.ReclaimAllAborts` | src/daemon.rs:574-598 | reclaiming several prompts aborts exactly the tasks reclaiming each alone would |
| `Batch.GroupByCollection` | src/dbus/service.rs:131-148 | the buckets partition the indices by collection, increasing, in order of first appearance |
| `Batch.GroupingUnique` | src/dbus/service.rs:119-130 | the keys determine the grouping |
| `Batch.AliasReaches` | src/dbus/state.rs:833-911 | an alias path is the path of the loaded collection it stands for, and nothing for an unknown name, an unusable table or a target not loaded |
| `Batch.PathReaches` | src/dbus/state.rs:879-911 | a direct path reaches the loaded collection of its own id or tells that it is broken |
| `UnlockBatch.Answer` | src/dbus/service.rs:438-507 | the places of the request answered as open are exactly those naming an unlocked vault, those asked for exactly those naming a locked vault or a broken collection, the collections their first appearances; the walk answers the same, and each vault is asked once |
| `UnlockBatch.WalkAnswers` | src/dbus/service.rs:438-507 | the walk over single paths answers exactly the open, the locked and the first appearances |
| `UnlockBatch.Prompts.Unlock` | src/dbus/service.rs:401-535 | the whole call: no prompt exactly when nothing named is locked, refused at the quota exactly when something is and the client is at it, otherwise a prompt of its own for exactly the locked; no client ever over the quota, a failed export undone |
| `UnlockBatch.Verdicts` | src/dbus/service.rs:474-495 | filling answers bucket by bucket gives each element its own |
| `UnlockBatch.WalkDistinct` | src/dbus/service.rs:496-507 | a prompt is never asked to unlock a collection twice |
| `LockBatch.Service.Lock` | src/dbus/service.rs:538-611 | every open vault named is locked and unpinned with its items as they were, no other vault changes, the reply is exactly the paths that name a loaded collection or an item that is there, in order, and the collections announced are exactly those that were open, each once; all as the walk has it |
| `LockBatch.WalkComes` | src/dbus/service.rs:589-611 | what the walk over single paths comes to is determined by what it is asked to lock, whatever the order |
| `LockBatch.WalkDoes` | src/dbus/service.rs:538-611 | the walk locks and unpins exactly the open vaults named, replies with exactly the paths that name something there and announces exactly what was open |
| `DeleteBatch.Validate` | src/dbus/collection.rs:561-584 | the nested run loops return the first fault in request order or the distinct ids; one vault guard, and a second exactly when a fault-free run of this collection is followed by another collection's path |
| `DeleteBatch.DistinctIs` | src/dbus/collection.rs:561-584 | the ids are distinct, exactly those named, in order of first appearance |
| `DeleteBatch.NoFault` | src/dbus/collection.rs:543-560 | nothing is at fault exactly when every path names an item of this collection that is there |
| `DeleteBatch.Confirm` | src/dbus/collection.rs:518-584 | confirmed exactly when every path names an item of this collection that is there; otherwise the first that does not decides the error |
| `DeleteBatch.Collection.Remove` | src/dbus/collection.rs:585-605 | all the ids go, keeping the order and multiplicity of the rest and every other vault, or nothing changes |
| `DeleteBatch.Collection.DeleteItems` | src/dbus/collection.rs:518-605 | the items left are exactly those not named, in order and as often as before, or nothing changes; the error is that of the first path at fault, then of the collection as found at the removal, whatever happened in between |
| `Postcard.VarRoundTrip` | src/protocol.rs:201-236 | every integer in range decodes from its varint |
| `Postcard.RoundTrip` | src/protocol.rs:201-258 | decoding an encoding gives the value back and leaves what followed, for every message type |
| `Postcard.Sound` | src/protocol.rs:238-258 | what is accepted is a value of the type and encodes no longer than what was read |
| `Postcard.Extends` | src/protocol.rs:246-257 | bytes after a complete message change nothing and are all left over |
| `Protocol.EncodeFrame` | src/protocol.rs:201-236 | the frame, or the size reported, whichever scratch buffer served it |
| `Protocol.Reader.ReadFrame` | src/protocol.rs:260-272 | four big-endian length bytes and exactly that body are taken and the rest left in place; short input and more than a mebibyte are refused |
| `Protocol.SentIsReceived` | src/protocol.rs:201-272 | a frame is read back as its own body in front of anything and decodes to what was sent |
| `Protocol.SuffixRefused` | src/protocol.rs:246-257 | an accepted body followed by anything is refused with that many extra bytes |
| `Protocol.PrefixFree` | src/protocol.rs:246-257 | no accepted body is a strict prefix of another |
| `Protocol.ReencodeStable` | fuzz/fuzz_targets/protocol_frame.rs:146-169 | re-encoding an accepted body is never longer, frames again and means the same |
| `Wire.VarintIs` | src/protocol.rs:201-236 | an integer is written in base 128, lowest group first, the top bit on all but the last, in the shortest form |
| `Wire.FrameIs` | src/protocol.rs:201-236 | a frame is four big-endian length bytes, the version 5 and the body, if that is less than a mebibyte |
| `Wire.VersionRefused` | src/protocol.rs:238-258 | a body of another version is refused by its version, an empty one as malformed |
| `Messages.RequestRoundTrip` | src/protocol.rs:55-84 | every request is framed exactly when it fits and received as itself |
| `Messages.ResponseRoundTrip` | src/protocol.rs:135-163 | every response is framed exactly when it fits and received as itself |
| `Messages.AcceptedRequest` | src/protocol.rs:238-258 | whatever is accepted is a well-typed request, stable under re-encoding, with nothing after it |
| `Messages.AcceptedResponse` | src/protocol.rs:238-258 | whatever is accepted is a well-typed response, stable under re-encoding, with nothing after it |
| `Wire.RequestBytes` | src/protocol.rs:45-84 | every request is its variant number and its fields, byte for byte |
| `Wire.ResponseBytes` | src/protocol.rs:135-163 | every response is its variant number and its fields, byte for byte |
| `Unicode.TextTaken` | src/protocol.rs:201-258 | the UTF-8 bytes of any sequence of scalar values are taken for a string |
| `Unicode.TextIs` | src/protocol.rs:238-258 | and nothing else is: accepted string bytes are the UTF-8 of scalar values |
| `VaultStore.ReinsertRestores` | src/vault/store.rs:782-793 | putting removed items back in ascending order restores the list exactly |
| `VaultIndex.StaleExactly` | src/vault/store.rs:613-625 | comparing one bit with the policy tells exactly whether the index follows it |
| `VaultIndex.SearchPicks` | src/vault/store.rs:542-556 | a search finds the ids of exactly the items that hold all of the query, in their order |
| `VaultIndex.SearchIds` | src/vault/store.rs:542-556 | the query hashed once, or not at all, gives the ids whose entries hold all of it |
| `VaultIndex.LockedSearch` | src/vault/format.rs:284-313 | searching by digests finds what searching the items finds, in order, if the index was built with attributes, and nothing otherwise |
| `VaultStore.Vault.FindIds` | src/vault/store.rs:542-556 | a search of the header answers for the sealed items, locked or not |
| `VaultStore.Vault.Save` | src/vault/store.rs:1231-1304 | the first of six steps to fail names the error and leaves header, sealed bytes and file as they were; success re-seals the items with a fresh index |
| `VaultStore.Vault.RestoreDelta` | src/vault/store.rs:762-795 | a push, replacement, removal or batch of removals is undone; a locked vault is left alone |
| `VaultStore.Vault.SaveOrRestore` | src/vault/store.rs:728-740 | a changed list reaches the file whole or is undone |
| `VaultStore.Vault.InsertItem` | src/vault/store.rs:797-866 | insert or replace, all or nothing |
| `VaultStore.Vault.UpdateItem` | src/vault/store.rs:869-905 | update one item, put back if too large or not saved |
| `VaultStore.Vault.DeleteItem` | src/vault/store.rs:928-942 | delete one item, all or nothing |
| `VaultStore.Vault.DeleteItems` | src/vault/store.rs:969-1010 | one save leaves exactly the items not named, in order; refused by the first unknown id; all or nothing |
| `VaultStore.Vault.UnlockWithKey` | src/vault/store.rs:589-638 | a retired vault and a wrong key change nothing; the right key gives back the sealed items, and the index warning is set exactly when the index was stale and could not be re-saved |
| `VaultStore.Vault.UnlockAndPin` | src/daemon.rs:460-471 | the pin reflects the last successful unlock and a failed one changes nothing |
| `VaultStore.Vault.IdleLock` | src/daemon.rs:705-712 | the timer locks exactly what is open and not pinned |
| `VaultStore.Vault.ChangeKey` | src/vault/store.rs:1119-1205 | after a rotation the new key opens the vault or the old one still does; items and lock state unchanged; what it does to the file as one turn |
| `VaultStore.Vault.DeleteFile` | src/dbus/prompt.rs:932-947 | retire and unlink under one guard; a failed unlink leaves a vault that was not retired as it was |
| `VaultDelete.DeletedStaysGone` | src/dbus/prompt.rs:915-948 | the file stays gone in every order of the remaining writes, locks, unlocks, rotations and deletes exactly when they hold no second delete together with a saver |
| `VaultDelete.Revive` | src/vault/store.rs:499-501 | the order that brings the file back |
| `LockOrder.PathOrderly` | src/dbus/prompt.rs:522-657 | a way through nested guards of rising rank acquires upwards and ends holding nothing |
| `LockOrder.RunKeeps` | src/dbus/prompt.rs:522-657 | every interleaving, early return and cancellation keeps the order and the capacities |
| `LockOrder.NeverNested` | src/daemon.rs:305-345 | nothing is awaited under the state mutex, a vault lock or a prompt's action |
| `DaemonLocks.AllRanked` | src/daemon.rs:305-418 | each of the daemon's operations, spelled out guard by guard, nests connection, reload permit, dialog slot, derivation slot and locks in one rank order |
| `DaemonLocks.DaemonNoCycle` | src/dbus/service.rs:438-492 | in no reachable state do operations wait in a circle |
| `DaemonLocks.DaemonNoDeadlock` | src/dbus/prompt.rs:926-948 | while anything is unfinished something can step |
| `Slots.SlotsConserved` | src/kdf.rs:31-43 | free, held and owned-by-closure permits always add up, under any cancellation; at most two derivations live |
| `Slots.ControlServer.Turn` | src/control/server.rs:147-187 | a turn of the accept loop drops or hands on its permit on every path |
| `Slots.ControlServer.Serve` | src/control/server.rs:147-205 | over any history no connection permit is lost and the wait after errors doubles from 100 ms to one second |
| `DhGroup.MinimalBe` | src/session/dh.rs:61-68 | the encoding without leading zeros, one byte for zero |
| `DhGroup.FromBePadded` | src/session/dh.rs:71-78 | the value of at most 128 bytes, padded on the left |
| `DhGroup.PaddedMinimal` | src/session/dh.rs:61-78 | padding the minimal encoding is the identity on 1024-bit numbers |
| `DhGroup.ExponentOk` | src/session/dh.rs:83-87 | the exponent is in [2, p - 2] without wrap-around |
| `DhGroup.PublicOk` | src/session/dh.rs:89-95 | the public key is not zero and encodes to 1 to 128 bytes with a first byte that is not zero |
| `DhGroup.Generate` | src/session/dh.rs:81-95 | the key pair from 128 random bytes: exponent in [2, p - 2], public key in its minimal encoding |
| `DhGroup.DeriveAesKey` | src/session/dh.rs:102-118 | padding and comparing on 1024-bit words refuses a peer key exactly when too long or outside [2, p - 2], and otherwise expands the padded shared secret |
| `DhGroup.Agreement` | src/session/dh.rs:102-118 | both sides derive the same key whenever both accept, however many leading zeros |
| `DhGroup.SecretFits` | src/session/dh.rs:109-110 | the padded secret keeps its value |
| `Label.DisplayNormal` | src/dbus/prompt.rs:167-188 | every label is shown in normal form, of its own characters, spaces and the ellipsis |
| `Label.NormalFixed` | src/dbus/prompt.rs:154-188 | normal texts are exactly the fixed points |
| `Label.DisplayIdempotent` | src/dbus/prompt.rs:167-188 | showing a label twice is showing it once |
| `Label.DisplayShows` | src/dbus/prompt.rs:167-188 | the words of the label are shown in order, broken by single spaces exactly where they were broken, and cut after sixty-four characters |
| `Escape.EscapeControl` | src/sanitize.rs:46-60 | each control or invisible character becomes the hex of its UTF-8 bytes, everything else stays |
| `Escape.EscapedPrintable` | src/sanitize.rs:40-60 | no control or invisible character survives |
| `Escape.EscapedFixed` | src/sanitize.rs:14-60 | text is unchanged exactly when all of it is printable |
| `Escape.EscapedReads` | src/sanitize.rs:46-60 | the text printed comes apart into one piece for each character, which is the character or the escapes of exactly its UTF-8 bytes |
| `GpgListing.ListingRead` | src/gpg.rs:132-133 | every listing that can be written, with either line ending, is taken apart into its own lines and fields |
| `GpgListing.ParseColons` | src/gpg.rs:128-171 | from the text, the one-pass loop reads what the records hold |
| `GpgListing.RecordRead` | src/gpg.rs:128-171 | a record that can sign gives one key, its fingerprint and keygrip from field 9, whatever else is printed between |
| `GpgListing.RecordSkipped` | src/gpg.rs:128-171 | a record that cannot sign, is expired or revoked, or has no good first keygrip or no fingerprint gives none |
| `GpgListing.ListingParts` | src/gpg.rs:128-171 | a listing is read record by record |
| `Gpg.FingerprintIsLongId` | src/gpg.rs:183-202 | with or without a prefix, in either case, a fingerprint and its last sixteen digits name one key |
| `Gpg.FingerprintsSame` | src/gpg.rs:183-216 | two fingerprints name one key exactly when their last sixteen digits agree, and a filter of long ids lets one through exactly when its own is there |
| `Gpg.OtherNamesAlone` | src/gpg.rs:183-216 | any other name is the same as itself only and passes no filter but the empty one |
| `Gpg.SameIsEquivalence` | src/gpg.rs:416-421 | naming the same key is an equivalence; which names those are is `Gpg.FingerprintIsLongId`, `Gpg.FingerprintsSame` and `Gpg.OtherNamesAlone` |
| `Gpg.AllowedRespectsSame` | src/gpg.rs:205-216 | the filter cannot tell names of one key apart (which names pass is `Gpg.FingerprintsSame` and `Gpg.OtherNamesAlone`) |
| `Gpg.FirstWins` | src/gpg.rs:428-454 | the rule adds, in order, the first wanted item of every key not there yet, with its secret, and reports every other wanted item |
| `Gpg.CollectEnrolled` | src/gpg.rs:428-454 | one vault's loop adds exactly the first wanted item of each key not there yet behind the earlier pairs, each with its own key id and secret, represents every enabled and allowed item, and reports exactly the others |
| `Gpg.CollectAll` | src/gpg.rs:423-454 | vault by vault gives the first wanted item of every key over all vaults, no key twice |
| `Gpg.EnrolledCovers` | src/gpg.rs:428-454 | every wanted enrolment is represented and earlier pairs stay in front |

## Left out

- Weak memory: the two atomics of a prompt are sequentially consistent here.
- D-Bus objects, signals and interface guards: a `Completed` signal is a counter, an exported object a flag; zbus's own locks are not modelled.
- Sessions, properties and writing the alias table: they would only add easy members; the table is an input of the batch model.
- A departure in the window after the task's last owner check: the departed-owner theorem excludes it, and its exact condition and a run through it are proved.
- UnlockBatch.Answer: the vaults compared with the walk are each vault as found under its own guard, which is taken once; the same goes for the batched lock.
- LockBatch.Service.Lock: the order of the announcements is left free, as it is between the batch and the walk.
- VaultStore.Vault.Save: file modes, temporary files and `fsync` are not modelled; whether each step fails is a parameter.
- VaultStore.Vault.ChangeKey: the sweep of temporary files before and after the rotation is not modelled.
- VaultIndex.LockedSearch: a digest is its salt, key and value, so hash collisions and the sorted list behind the binary search are not modelled.
- Bulk import and label changes of a vault.
- Timeouts of dialogs, connections and handlers: a wait that times out is an early return or a cancellation.
- DhGroup.Agreement: modular exponentiation is the mathematical power; constant-time arithmetic, HKDF itself and its failing are not modelled.
- DaemonLocks.AllRanked: zbus's interface guards, which the daemon only ever takes for reading, are not among the resources.
- Configuration, command line, PAM and import code.
