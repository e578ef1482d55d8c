# A verified model of Orv vaults

Orv builds self-organising trees of service directories. A *vaultkeeper* (VK) keeps track of its
children, which are *leaves* that offer services and other VKs that pass on what is offered below
them. A tree of VKs is a *vault*. This project models the Slims implementation of the protocol, its
wire header and version sets, and the child table of the Proof implementation, and proves what they
promise, or exactly when they keep it: the root knows every service, heights rise along parent links, a
merge restores exact heights, requests are answered where a walk up the tree says they are, and no
bookkeeping table drifts away from the others.

`dafny verify dfyconfig.toml` checks everything. All line numbers below are those of the repository.

## How it is built

| file | what it models |
|---|---|
| `Basics.dfy` | IDs, addresses, 16- and 32-bit arithmetic, faults, request bodies |
| `Bits.dfy` | shifts, AND and OR on unsigned integers, and when they are sums and remainders |
| `Versions.dfy` | `protocol/version/version.go`: one-byte versions and version sets |
| `Wire.dfy` | `protocol/protocol.go`: header codec, validation, splitting a packet |
| `ChildTables.dfy` | the three child tables of `vk/children.go` and their timers, as values |
| `ChildRecords.dfy` | what each operation does to the record, timers and counts of its child, and nothing to others |
| `VaultNode.dfy` | one VK as a value, with every handler of `vk/handlers.go` and the local halves of `vk/requests.go` as functions; what every run of one VK keeps |
| `Answers.dfy` | how each message is answered: which fault is named, what is acknowledged, what changes |
| `VaultKeeper.dfy` | the same VK as an object updated in place, with the loops of the source; every method is proved to do what the function does |
| `Vault.dfy` | many VKs and the INCREMENTs in flight; heights |
| `LossyMerge.dfy` | the same when acceptances of MERGEs are lost; no cycles |
| `MergeWave.dfy` | the INCREMENT wave after a MERGE |
| `ExactRuns.dfy` | exact heights over runs in which nothing is lost |
| `StructureRuns.dfy` | runs from new VKs that break the structure of a vault |
| `Omnipotence.dfy` | REGISTER, DEREGISTER, JOIN, LEAVE and expiry cascades and MERGE; the root knows everything on record |
| `WholeTree.dfy` | when that is everything in the tree of parent links |
| `Routing.dfy` | GET and LIST handed up the tree |
| `Discovery.dfy` | the two together: which services are found |
| `Provenance.dfy` | where the addresses handed out come from, and when they are still offered |
| `FailingRuns.dfy` | runs from new VKs in which a client is misinformed |
| `ProofChildren.dfy` | the child table of the Proof implementation, as a value and as an object |

The handlers are functions from the old VK to the new one, the reply, and the messages sent. The class
`VaultKeeper` has the source's fields, and each of its methods states that it turns `State()` into what
the corresponding function returns, so every theorem about the functions is a theorem about the object.
`Vault` and the files that build on it run many VKs with the same functions.

## What is assumed

- Node IDs are unique and nonzero. Where a theorem needs a node never to change between leaf and VK it
  says so (`KindStable`, `KindsKept`).
- Every section that holds the children lock or the structure lock is one step.
- The expiring table is a map; an expiry and its cleanup callback are one step; storing a key again
  replaces its record and callback. `Refresh` after a successful `Load` in `addService`
  (vk/children.go:141-143) therefore succeeds.
- Timers are the callbacks they will run, carrying only the child ID and service that the closures
  capture. Whether `Stop` or `Reset` was in time is an argument.
- A JOIN exchange and a MERGE exchange are one step, except in `LostMergeAcceptance` and `LossyMerge`. JOIN
  and MERGE are started by VKs without a parent; `MergeRisesIff` and `ChildMergesMakeCycle` say what happens
  otherwise. A
  MERGE target is not one of the requester's leaves, as IDs keep their kind.
- An address identifies the node it belongs to: a message sent to a recorded address reaches that node.
- For omnipotence only: every REGISTER, DEREGISTER and LEAVE is delivered, a cascade is complete before the next
  step starts, a root does not ask its own child to merge, the DEREGISTERs of a bulk removal are sent once the
  entries are gone, and heartbeats to a parent that still has the child on record are answered.
- Protobuf bodies arrive decoded, absent or malformed; address and duration parsing has succeeded or not.

## Where the code does not do what is promised

Each of these is proved, with the exact condition under which the promise holds.

- *Expired record: heights.* A child whose record expires while it still has its parent gets no INCREMENT
  (vk/requests.go:128-142 sends to recorded children only), so a merge leaves it behind with no message lost. Once
  the wave is over, heights are exact if and only if every old descendant of the requester was on its parent's
  record: `MergeWaveOutcome`; a run that ends two levels apart is in `ExpiredRecordMissesWave`.
- *Expired record: services.* README.md:66-68 says the root knows all services of its vault. A parent that drops a
  child's record (vk/children.go:27-36) drops what the child registered and refuses what it registers from then on,
  while the child keeps its parent. A VK lists exactly what is registered in the tree of parent links below it if
  and only if it happens to list whatever the VKs off record there list: `KnowsItsTreeIff`. No other step takes
  anybody off record (`AdvanceKeepsRecords`), so without expiry the promise holds (`EveryoneKnowsItsTree`).
  `ExpiryHidesService` is a run after which a client that asks the very VK a service is registered at is told of
  none.
- *Stale addresses.* A DEREGISTER that leaves another provider is not passed on (vk/children.go:221-240), nor is
  any other loss of one of several, so a parent may go on handing out an address nobody offers:
  `StaleAddressIsHandedOut` is a run with every message delivered and the child still on record. The parent's address stays good exactly when a provider
  that remains has it too: `DeregisterStaysTruthfulIff`, `LossStaysTruthfulIff`. While the records on all levels
  are good, every address handed out is offered below (`GetAnswerIsOffered`); that it was registered by some leaf
  for that name earlier holds always (`AddressesWereRegistered`).
- *Merging with a recorded child.* `addCVK` replaces a child VK's record without removing it as a
  provider (vk/children.go:38-44), so the index keeps entries the record lost. Agreement holds exactly when the
  record was empty: `AddCVKAgreesIff`. `RemergingHappens` is a run between roots that gets there, and
  `RemergingBreaksAgreement` the part of it at one VK. The other direction survives, every record is still in the
  index: `RecordsAreListedAlways`.
- *Stale timer and a new kind.* The stale-service callback removes the provider before it looks for the leaf
  (vk/children.go:179-188). If the ID now belongs to a child VK with that service, the index loses an entry the
  record keeps: `FirePruneAgreesIff`; `ChangedKindBreaksAgreement` is a run that gets there. Even then no ID is
  both leaf and child VK and no listed service is without provider: `TidyAlways`.
- *Two timers for one service.* DEREGISTER deletes a leaf's service without stopping its stale timer
  (vk/handlers.go:710-714). When the leaf registers the service again it has two, and the older one drops it while it
  is still fresh: `FreshServiceIsDropped`. Each service has exactly one timer after an operation if and only if the
  operation stops the timers it makes obsolete, which DEREGISTER of a leaf's service never does:
  `ChangeKeepsTimedIff`, and over runs `TimedAlways`.
- *Merge by a VK that has a parent.* `Merge` never checks that the requester is a root
  (vk/requests.go:72-118; README.md:178-180 asks for it). Heights keep rising exactly when it is, or its parent
  happens to be more than one level up: `MergeRisesIff`; `ChildMergeBreaksRising` is a run that gets level, and
  `ChildMergesMakeCycle` one that makes three VKs each other's ancestors.
- *Lost MERGE_ACCEPT.* The target has its parent, the requester has not risen, and the link is level until the
  MERGE is repeated: `LostMergeAcceptance`. As long as only roots start MERGEs no cycle comes of it: `NoCycleEver`.
- *Root omnipotence after a merge.* README.md:66-68 says the root knows all services, but a MERGE hands nothing up.
  Every VK still lists exactly what is registered under it if and only if the new root happened to list
  every name the absorbed root lists: `MergeKeepsOmniscienceIff`; `MergeHidesService` is a run from new VKs that
  leaves the root without a service. Parents' records match their children, which is what keeps omnipotence
  going afterwards, exactly when the absorbed root listed nothing: `MergeKeepsSyncIff`. Runs with such merges are
  covered by `RootOmnipotence`; without any merge, VKs of the default height 0 cannot join each other.
- *Unanswered requests.* A GET is dropped where a VK meets its own ID or an unsupported version; a LIST is dropped
  at any VK met twice, seen tokens included. `GetRefinesWalk` and `ListRefinesWalk` say exactly when; with rising
  heights it does not happen (`GetIsAnswered`, `ListIsAnswered`).
- *16-bit wrap.* `serveIncrement` compares in 32 bits and adds in 16: `IncrementWrapsIff`. `NoHeightWraps` shows
  that no vault gets there.
- *Header validation.* `Validate` promises an enumerated seven-bit type (protocol/protocol.go:73), but its name test
  catches number 0 only, since a number without a name prints as itself. Validated headers survive the wire
  exactly when the type fits: `ValidatedRoundTrip`, `ValidationMissesWideTypes`.
- *Header length.* The comment of `Deserialize` says 12 bytes; the code reads 10. A short read inside the ID names
  byte `i+2` where the bytes before it are counted from 1; the model keeps the number.
- *Large packets.* The sender does not bound a packet; the receiver cuts at 1024 bytes: `FramingRoundTrip`.
- *Wide versions.* The first byte of `AsBytes` is the highest version's exactly when no version's low four-bit halves
  are above those of the highest: `FirstByteIsHighestIff`. Four-bit versions always meet that
  (`FirstByteIsHighest`); 16.0 beside 1.0 does not (`WideVersionsMisorder`).
- *Error name.* `removeProvider` documents UNKNOWN_SERVICE_ID and returns BAD_SERVICE_NAME; the model follows the code.
- *MERGE without a body.* Intended to mean height 0 (vk/handlers.go:390-392), it leaves the address string empty and
  ends in MALFORMED_ADDRESS for a root of height 0; the model follows the code.
- *Proof.* The leaf service timer never touches the index, so entries outlive their service. It is the only operation
  that leaves an entry without a record, and does so exactly when the service was on record: `DoKeepsBackedIff`. A
  new child VK can inherit such an entry: `AddVKBackedIff`.

"Under" a VK means at it or below it with every VK on the way on its parent's record (`Under`); "below" means
along parent links alone (`Below`).

## Model

| member | source | states |
|---|---|---|
| `ChildTables.ChangeAgreesIff` | implementations/slims/slims/vk/children.go:18-297 | an operation or timer callback keeps index and child records in exact agreement if and only if it is harmless: it replaces no record that had services, and is no stale timer of an ID that became a child VK |
| `ChildTables.ChangeContainsIff` | implementations/slims/slims/vk/children.go:18-297 | every record stays in the index, whatever the operation, unless a stale-service callback fires for what is now a child VK with that service |
| `ChildTables.ChangeTidies` | implementations/slims/slims/vk/children.go:18-297 | every operation keeps leaf and child VK IDs disjoint and no listed service without provider, with no obligation at all |
| `ChildTables.AddCVKAgreesIff` | implementations/slims/slims/vk/children.go:18-46 | installing a child VK keeps agreement exactly when no record with services is replaced |
| `ChildTables.AddServiceAgrees` | implementations/slims/slims/vk/children.go:109-169 | a registration changes the one (service, child) entry in the record and in the index, and keeps agreement |
| `ChildTables.DeregisterAgrees` | implementations/slims/slims/vk/handlers.go:704-719 | DEREGISTER drops exactly one entry from both views and succeeds exactly when the child offered the service |
| `ChildTables.FirePruneAgreesIff` | implementations/slims/slims/vk/children.go:174-203 | the stale-service callback keeps agreement exactly when its ID is not a child VK offering that service |
| `ChildTables.FireRecheckAgrees` | implementations/slims/slims/vk/children.go:78-91 | the serviceless-leaf callback removes exactly the leaf it was armed for, if that is still without services, and changes nobody's offers |
| `ChildTables.RemoveCVKAgrees` | implementations/slims/slims/vk/children.go:246-266 | a child VK that leaves or expires takes exactly its record, its entries and the services only it provided, no other child's record and no timer |
| `ChildTables.RemoveLeafAgrees` | implementations/slims/slims/vk/children.go:272-297 | the same for a leaf, whichever of its timers could still be stopped; every other leaf stays, with services or without, and its timers run on |
| `ChildTables.WithoutIsExact` | implementations/slims/slims/vk/children.go:255-259 | bulk removal entry by entry: the child provides none of the names, every other entry is unchanged, names vanish exactly when it was the sole provider |
| `ChildTables.WithoutStep` | implementations/slims/slims/vk/children.go:33-35 | the loop over a child's services may visit them in any order |
| `ChildTables.ChangeConserves` | implementations/slims/slims/vk/children.go:213-242 | every operation keeps additions = DEREGISTERs + presence, service by service |
| `ChildTables.ChangeCovers` | implementations/slims/slims/vk/children.go:174-203 | every operation keeps each leaf service timed and each serviceless leaf watched |
| `ChildTables.DeregisterCovers` | implementations/slims/slims/vk/handlers.go:710-714 | DEREGISTER of a leaf's last service leaves the leaf watched, by the timer it does not stop |
| `ChildTables.FirePruneCovers` | implementations/slims/slims/vk/children.go:194-202 | a leaf that loses its last service to its timer is watched by the restarted recheck |
| `ChildTables.LeavesDrain` | implementations/slims/slims/vk/children.go:78-91 | without further requests only finitely many callbacks run, in any order, and when none is left no leaf is left |
| `ChildTables.ChangeKeepsTimedIff` | implementations/slims/slims/vk/children.go:109-203 | an operation keeps exactly one stale timer for each service on a leaf's record, and none besides, if and only if it stops in time the timers it makes obsolete; DEREGISTER of a leaf's service never does |
| `ChildTables.ChangeKeepsKinds` | implementations/slims/slims/vk/children.go:18-99 | no operation makes one ID both leaf and child VK, or leaves a leaf timer under a VK's ID, when joins respect kinds |
| `ChildRecords.OthersUntouched` | implementations/slims/slims/vk/children.go:18-297 | no operation or callback changes the record, the timers or the index entries of any child but the one it is about |
| `ChildRecords.NewVKIsRecorded` | implementations/slims/slims/vk/children.go:18-46 | a new child VK is on record without services at the address it gave; a leaf's ID is refused |
| `ChildRecords.NewLeafIsRecorded` | implementations/slims/slims/vk/children.go:62-99 | a new leaf is on record without services and has one timer that will look at it again |
| `ChildRecords.RegistrationIsRecorded` | implementations/slims/slims/vk/children.go:109-169 | a leaf's record takes the address and stale time given, with one timer more or the old one replaced; a child VK's record takes the address; no other service of the child changes |
| `ChildRecords.DeregistrationIsRecorded` | implementations/slims/slims/vk/handlers.go:704-719 | DEREGISTER takes the one service off the record even on an index error, names the error by what the index lacks, keeps the child and stops no timer |
| `ChildRecords.StalenessIsRecorded` | implementations/slims/slims/vk/children.go:174-203 | the stale-service callback takes the one service off a leaf's record, and a leaf left without services gets a recheck unless one is running |
| `ChildRecords.RecheckIsRecorded` | implementations/slims/slims/vk/children.go:78-91 | the serviceless-leaf callback drops a leaf without services and changes nothing else |
| `ChildRecords.VKDepartureIsRecorded` | implementations/slims/slims/vk/children.go:246-266 | a departing child VK takes its record, and no leaf and no timer |
| `ChildRecords.LeafDepartureIsRecorded` | implementations/slims/slims/vk/children.go:272-297 | a departing leaf takes its record and exactly those of its timers that could be stopped |
| `ChildRecords.CountsFollowNames` | implementations/slims/slims/vk/children.go:109-297 | through every operation a service counts as added exactly when its name appears in the index, and a DEREGISTER is attempted exactly when it goes |
| `VaultNode.ApplyChanges` | implementations/slims/slims/vk/handlers.go:325-728 | every event changes the child tables by exactly one critical section, or not at all |
| `VaultNode.IndexAgreesAlways` | implementations/slims/slims/vk/vaultkeeper.go:80-93 | in every state of every run in which IDs keep their kind and no MERGE target is still recorded with services, the index lists exactly what the children offer |
| `VaultNode.TidyAlways` | implementations/slims/slims/vk/vaultkeeper.go:80-93 | in every state of every run, leaf and child VK IDs are disjoint and no service keeps an empty provider map |
| `VaultNode.RecordsAreListedAlways` | implementations/slims/slims/vk/vaultkeeper.go:80-93 | in every state of every run in which IDs keep their kind, every service on a child's record is in the index with its address, even after re-merging |
| `VaultNode.RemergingBreaksAgreement` | implementations/slims/slims/vk/requests.go:120-124 | a concrete run in which merging twice with a child that had registered a service breaks agreement |
| `VaultNode.ChangedKindBreaksAgreement` | implementations/slims/slims/vk/children.go:174-188 | a concrete run: a leaf registers, deregisters and leaves, its ID joins as a child VK and registers the same service, and the old timer then breaks agreement |
| `VaultNode.DeregistersAreConserved` | implementations/slims/slims/vk/children.go:213-242 | over every run: times added as totally new minus DEREGISTERs attempted is 1 if listed and 0 if not |
| `VaultNode.LeavesStayCovered` | implementations/slims/slims/vk/children.go:75-97 | over every run: each leaf service has a prune callback, each serviceless leaf a pending one that rechecks it |
| `VaultNode.TimedAlways` | implementations/slims/slims/vk/children.go:109-203 | over every run in which each event stops the timers it should, each service on a leaf's record has its one timer |
| `VaultNode.FreshServiceIsDropped` | implementations/slims/slims/vk/handlers.go:704-719 | a run from a new VK: DEREGISTER and REGISTER leave two timers, and the older one removes the service while the newer is still running |
| `VaultNode.HellosAreConserved` | implementations/slims/slims/vk/handlers.go:302-322 | over every run and for each ID: children installed by JOIN plus parents accepted by MERGE plus the pending HELLO never exceed HELLOs served |
| `VaultNode.DuplicatesInstallNothing` | implementations/slims/slims/vk/handlers.go:354-358 | a repeated JOIN of a child VK and a repeated MERGE from the parent install nothing |
| `VaultNode.JoinAcceptedIff` | implementations/slims/slims/vk/handlers.go:325-385 | JOIN is accepted exactly from a child of the right height that is known as that kind or has greeted and is not known as the other; in 32 bits a claimed height of 2^32-1 passes at height 0 |
| `VaultNode.HelloAdmitsOneJoin` | implementations/slims/slims/vk/handlers.go:302-385 | HELLO then JOIN installs the one child asked for and spends the HELLO: a leaf joining again must greet again, a VK is only refreshed |
| `VaultNode.MergeAcceptedIff` | implementations/slims/slims/vk/handlers.go:389-500 | MERGE is accepted exactly at equal heights, a missing body meaning 0: from the present parent, or by a root with room to rise from a greeted stranger with an address in the body that parses, or none there and a sender's |
| `VaultNode.MergeTakesAddress` | implementations/slims/slims/vk/handlers.go:452-489 | an accepted stranger becomes the parent at the address the MERGE carries, whoever sent it, and at the sender's only if it carries none; an address that does not parse is MALFORMED_ADDRESS exactly when a good one would have been accepted |
| `VaultNode.IncrementAcceptedIff` | implementations/slims/slims/vk/handlers.go:504-591 | INCREMENT is accepted exactly from the parent for the present height or the next; height and acknowledgement are then the height announced, and one INCREMENT goes to each child VK exactly when it is new |
| `Answers.AcksAnnounceHeight` | implementations/slims/slims/vk/handlers.go:302-591 | HELLO, JOIN, MERGE and INCREMENT are acknowledged with the height held after handling if no check fails, and refused otherwise |
| `Answers.HelloAnswers` | implementations/slims/slims/vk/handlers.go:302-322 | HELLO is refused for shorthand or a body only, never for its version, and remembered exactly when acknowledged |
| `Answers.JoinAnswers` | implementations/slims/slims/vk/handlers.go:325-372 | the fault of a JOIN is that of the first check that fails, in the order height, address, HELLO, ID once it can be read |
| `Answers.JoinEnters` | implementations/slims/slims/vk/handlers.go:340-385 | a HELLO is spent by the JOIN that needs it even if the ID is in use; a new child is entered, a VK with the address it gave, and a known one left as it is |
| `Answers.MergeAnswers` | implementations/slims/slims/vk/handlers.go:393-482 | a stranger's MERGE is refused for the first of: not root, no HELLO, ID in use, malformed body, height, address |
| `Answers.MergeLinksStranger` | implementations/slims/slims/vk/handlers.go:436-500 | the HELLO of a MERGE is spent as soon as it is asked for; acceptance sets the parent and nothing else |
| `Answers.RepeatedMergeAnswers` | implementations/slims/slims/vk/handlers.go:400-434 | a MERGE from the parent is acknowledged again at the right height and makes the VK give the parent up at any other |
| `Answers.MergeRequesterRises` | implementations/slims/slims/vk/requests.go:116-143 | the requester rises by one, enters the target at its address and tells every other child VK, unless the target is one of its leaves |
| `Answers.IncrementAnswers` | implementations/slims/slims/vk/handlers.go:504-591 | an INCREMENT is refused for the first of: not the parent, malformed body, height, once it can be read |
| `Answers.RegisterAnswers` | implementations/slims/slims/vk/handlers.go:630-664 | a REGISTER is refused for the first of: name, stale time, address, unknown child, once it can be read, and acknowledged with the name |
| `Answers.RegisterEnters` | implementations/slims/slims/vk/handlers.go:656-684 | an accepted REGISTER enters name, address and stale time as given and goes on to the parent exactly if there is one; a refused one changes nothing |
| `Answers.DeregisterAnswers` | implementations/slims/slims/vk/handlers.go:686-728 | DEREGISTER is acknowledged with the name exactly when the index lists the entry, and carried out in any case |
| `Answers.LeaveAnswers` | implementations/slims/slims/vk/handlers.go:595-628 | LEAVE is acknowledged without a body to every child on record, VK or leaf, which goes, and to nobody else |
| `Answers.HeartbeatFaults` | implementations/slims/slims/vk/handlers.go:731-750 | a heartbeat that cannot be read, or not from a leaf, is a fault |
| `Answers.ListAnswers` | implementations/slims/slims/vk/handlers.go:119-196 | a LIST is dropped exactly if its token was seen; else it is sent on with one hop less, or answered with every name listed at the end of its way and whenever it cannot be sent on |
| `Answers.GetAnswers` | implementations/slims/slims/vk/handlers.go:198-270 | a GET is answered with the addresses listed exactly if the service is listed, as not found exactly at the end of its way, and else sent on with one hop less |
| `Answers.ParentComesAndGoes` | implementations/slims/slims/vk/requests.go:41-45 | joining records who and where the parent is, and giving it up undoes exactly that |
| `Answers.ForgottenIsGone` | implementations/slims/slims/vk/handlers.go:353-368 | a node whose pending HELLO has expired must greet again, and an expired LIST token is handled as new |
| `Answers.LostParentIsIgnored` | implementations/slims/slims/vk/handlers.go:514-518 | a parent given up is obeyed no more |
| `VaultNode.HeartbeatPartitions` | implementations/slims/slims/vk/handlers.go:746-776 | the answer to a leaf's heartbeat lists each name as often as asked, as refreshed exactly if it is on the leaf's record and its timer could be stopped, else as unknown; it is a fault exactly if none is refreshed |
| `VaultNode.FreshIsGood` | implementations/slims/slims/vk/vaultkeeper.go:117-180 | a new VK satisfies every invariant the run theorems start from |
| `VaultKeepers.VaultKeeper.constructor` | implementations/slims/slims/vk/vaultkeeper.go:117-208 | a new VK is a root without children, of its configured height |
| `VaultKeepers.VaultKeeper.AddCVK` | implementations/slims/slims/vk/children.go:18-46 | in-place form; refuses the ID of a leaf |
| `VaultKeepers.VaultKeeper.AddLeaf` | implementations/slims/slims/vk/children.go:64-99 | in-place form; refuses the ID of a child VK and starts the recheck timer of a new leaf |
| `VaultKeepers.VaultKeeper.AddService` | implementations/slims/slims/vk/children.go:109-169 | in-place form: record, timer, index and history all change as specified; unknown children are refused |
| `VaultKeepers.VaultKeeper.RemoveProvider` | implementations/slims/slims/vk/children.go:213-242 | in-place form with both error cases; the parent is told exactly when the last provider goes |
| `VaultKeepers.VaultKeeper.RemoveAsProvider` | implementations/slims/slims/vk/children.go:255-259 | the deferred loop, visiting the services in any order, equals one bulk removal |
| `VaultKeepers.VaultKeeper.RemoveCVK` | implementations/slims/slims/vk/children.go:248-267 | in-place form, and whether the child was found |
| `VaultKeepers.VaultKeeper.ExpireCVK` | implementations/slims/slims/vk/children.go:27-36 | the cleanup of an expired record is the removal a LEAVE makes |
| `VaultKeepers.VaultKeeper.RemoveLeaf` | implementations/slims/slims/vk/children.go:273-297 | in-place form, with the timers that could be stopped |
| `VaultKeepers.VaultKeeper.PruneServiceFromLeaf` | implementations/slims/slims/vk/children.go:174-203 | in-place form of the stale-service callback |
| `VaultKeepers.VaultKeeper.PruneServicelessLeaf` | implementations/slims/slims/vk/children.go:78-91 | in-place form of the serviceless-leaf callback |
| `VaultKeepers.VaultKeeper.ServeHello` | implementations/slims/slims/vk/handlers.go:302-322 | in-place handler equals its specification, faults included |
| `VaultKeepers.VaultKeeper.ServeJoin` | implementations/slims/slims/vk/handlers.go:325-385 | in-place handler equals its specification: height check in 32 bits, refresh, HELLO spent even when the ID is in use |
| `VaultKeepers.VaultKeeper.ServeMerge` | implementations/slims/slims/vk/handlers.go:389-500 | in-place handler equals its specification: repeated MERGE, dropped parent, the order of the refusals |
| `VaultKeepers.VaultKeeper.MergeAccepted` | implementations/slims/slims/vk/requests.go:116-142 | the requester rises by one, records the target, and sends one INCREMENT to every other child VK |
| `VaultKeepers.VaultKeeper.IncrementChildren` | implementations/slims/slims/vk/requests.go:128-142 | the loop over the child VKs sends exactly one INCREMENT to each not excepted |
| `VaultKeepers.VaultKeeper.ServeIncrement` | implementations/slims/slims/vk/handlers.go:504-591 | in-place handler equals its specification: duplicate, success with fan-out, refusal |
| `VaultKeepers.VaultKeeper.JoinAccepted` | implementations/slims/slims/vk/requests.go:41-62 | the joiner takes its parent and hands up every provider of every service it lists, nothing else |
| `VaultKeepers.VaultKeeper.DropParent` | implementations/slims/slims/vk/requests.go:196-202 | leaving, or giving a silent parent up, clears the parent and nothing else |
| `VaultKeepers.VaultKeeper.ServeRegister` | implementations/slims/slims/vk/handlers.go:630-684 | in-place handler equals its specification, and says when the registration is repeated to the parent |
| `VaultKeepers.VaultKeeper.ServeDeregister` | implementations/slims/slims/vk/handlers.go:686-728 | in-place handler equals its specification: the record loses the service even when the index had no such provider |
| `VaultKeepers.VaultKeeper.ServeLeave` | implementations/slims/slims/vk/handlers.go:595-628 | in-place handler equals its specification for child VKs, leaves and strangers |
| `VaultKeepers.VaultKeeper.ServeServiceHeartbeat` | implementations/slims/slims/vk/handlers.go:731-779 | the loop sorts the names into refreshed and unknown as specified; no name refreshed is a fault |
| `VaultKeepers.VaultKeeper.ServeList` | implementations/slims/slims/vk/handlers.go:119-196 | in-place handler equals its specification: tokens, hop count, forward, or answer here at a root, at the last hop, or when the forward cannot be sent |
| `VaultKeepers.VaultKeeper.ServeGet` | implementations/slims/slims/vk/handlers.go:198-270 | answers with the address of some listed provider whenever the service is listed, whichever the map yields first; needs only that provider maps are not empty, as `TidyAlways` gives |
| `VaultKeepers.VaultKeeper.CountProviders` | implementations/slims/slims/vk/handlers.go:61-71 | the two STATUS loops count, for each service, the children that offer it, in 32-bit arithmetic |
| `VaultKeepers.StatusCountsProviders` | implementations/slims/slims/vk/handlers.go:61-71 | those counts are the numbers of providers in the index, for exactly the services listed |
| `Vault.JoinIsOneBelow` | implementations/slims/slims/vk/handlers.go:347-349 | for every 16-bit joiner, acceptance means joiner height + 1 = own height; nothing joins under height 0 |
| `Vault.AcceptedMerge` | implementations/slims/slims/vk/requests.go:116-143 | an accepted MERGE was between equal heights below 65535, raises the requester by one without wrapping and links the target under it |
| `Vault.MergeRisesIff` | implementations/slims/slims/vk/requests.go:72-143 | a MERGE keeps heights rising along links exactly when the requester is a root or its parent is more than one level up |
| `Vault.ChildMergeBreaksRising` | implementations/slims/slims/vk/requests.go:72-143 | a concrete run from new VKs: a child one below its parent merges with another root and ends level with its parent |
| `Vault.StepRises` | implementations/slims/slims/vk/handlers.go:532-590 | every step keeps each parent strictly higher than its child, with INCREMENTs lost, repeated or late; no height falls |
| `Vault.HeightsRiseAlways` | implementations/slims/slims/vk/handlers.go:532-590 | the same over every run |
| `Vault.NoHeightWraps` | implementations/slims/slims/vk/handlers.go:474-478 | every step leaves a height alone or adds exactly one: no 16-bit increment wraps |
| `Vault.IncrementWrapsIff` | implementations/slims/slims/vk/handlers.go:533-548 | the handler alone lowers a height exactly for a supported INCREMENT of 65536 from the parent at height 65535 |
| `Vault.HeightGrowsUpward` | README.md:73-75 | the k-th ancestor is at least k higher |
| `Vault.ParentLinksAreAcyclic` | README.md:160-160 | no VK is its own ancestor, and every chain of parents ends within 65535 links |
| `Vault.LostMergeAcceptance` | implementations/slims/slims/vk/handlers.go:400-434 | when the acceptance is lost the new link is level; repeating the MERGE is accepted and gives the same vault as if nothing had been lost |
| `LossyMerge.StepHolds` | implementations/slims/slims/vk/handlers.go:389-500 | even when only the target's half of a MERGE happens, no parent is ever lower than its child, and a level parent has room to rise |
| `LossyMerge.ChainsEndAlways` | README.md:160-160 | over every run in which acceptances of MERGEs and INCREMENTs are lost, late or repeated, every chain of parents ends at a root |
| `LossyMerge.NoCycleEver` | README.md:160-160 | so in every such run from new VKs in which only roots start MERGEs, no VK is its own ancestor |
| `StructureRuns.ChildMergesMakeCycle` | implementations/slims/slims/vk/requests.go:72-143 | a concrete run from new VKs in which VKs that have a parent start MERGEs, each accepted, and parents form a cycle of three |
| `StructureRuns.RemergingHappens` | implementations/slims/slims/vk/children.go:18-46 | a concrete run from new VKs with MERGEs by roots only, in which a MERGE with a child still on record replaces its record and the index keeps the service |
| `MergeWave.MergeStartsWave` | implementations/slims/slims/vk/requests.go:116-142 | after an accepted MERGE in a vault of exact heights exactly the requester is raised and each of its recorded children has its INCREMENT on the way, whatever older messages are in flight |
| `MergeWave.DeliveryKeepsWave` | implementations/slims/slims/vk/handlers.go:532-586 | any delivery keeps that situation, raising at most the addressee, and leaves strictly less to deliver |
| `MergeWave.MergeWaveOutcome` | implementations/slims/slims/vk/requests.go:116-142 | from exact heights, once nothing is in flight, in any order and with any repetition of deliveries: exactly the requester and its old descendants on record all the way are one higher, the absorbed VKs are unchanged, only the absorbed root has a new parent, and all links are exact if and only if every old descendant was on record |
| `MergeWave.MergeWaveIsExact` | implementations/slims/slims/vk/requests.go:116-142 | so with everyone on record exactly the requester and its old descendants are one higher, the absorbed VKs are unchanged, and every link is exact |
| `MergeWave.ExpiredRecordMissesWave` | implementations/slims/slims/vk/requests.go:128-142 | a concrete run from new VKs: after an expired record the MERGE sends nothing and leaves a child two levels below its parent |
| `MergeWave.WaveIsBounded` | implementations/slims/slims/vk/handlers.go:562-583 | whatever the order, there are at most as many deliveries as messages in flight and child records of VKs not yet raised |
| `MergeWave.MergeIsBounded` | implementations/slims/slims/vk/requests.go:128-142 | a MERGE without repeated messages takes at most one delivery per child record and per message already in flight |
| `MergeWave.WaveSettles` | implementations/slims/slims/vk/handlers.go:562-583 | from any point the wave can be delivered to its end, whichever message goes next |
| `MergeWave.MergeCompletes` | README.md:178-184 | a MERGE of two roots whose VKs share the version can be completed, with one root fewer, and then the vault is exact if and only if everyone below the requester was on record |
| `MergeWave.JoinKeepsExact` | README.md:160-160 | a JOIN by a root keeps every parent exactly one higher than its child, and everyone on record who was |
| `ExactRuns.StepStaysOrderly` | implementations/slims/slims/vk/requests.go:116-143 | with nothing in flight, exact heights and everyone on record, each JOIN by a root, LEAVE, MERGE by a root with its wave delivered, and anything else short of losing a parent or a record, ends so again |
| `ExactRuns.ExactAlways` | README.md:160-160 | every run of these steps keeps every parent exactly one level above its child throughout |
| `ExactRuns.NewIsOrderly` | README.md:160-160 | new VKs start that way |
| `MergeWave.OneRootEach` | README.md:180-180 | nothing hangs below two roots |
| `Omnipotence.RegisterHopIsHandler` | implementations/slims/slims/vk/handlers.go:630-684 | each hop of the REGISTER cascade is what the handler does, and it continues exactly when the handler says so |
| `Omnipotence.DeregisterHopIsHandler` | implementations/slims/slims/vk/handlers.go:686-728 | each hop of the DEREGISTER cascade is what the handler does, and it continues exactly when the last provider went |
| `Omnipotence.DepartureIsHandler` | implementations/slims/slims/vk/handlers.go:595-628 | a LEAVE step is what the parent's handler does, whatever timers it could stop, and the child dropping its parent |
| `Omnipotence.AdvanceTakesSteps` | implementations/slims/slims/vk/requests.go:196-202 | the steps of the service model that pass no service on are those of the height model, so both speak of the same vaults |
| `Omnipotence.RegisterUpKeepsSync` | implementations/slims/slims/vk/handlers.go:666-682 | after a REGISTER cascade the receiver's record has gained the name and everyone above is in sync again |
| `Omnipotence.DeregisterUpKeepsSync` | implementations/slims/slims/vk/children.go:221-240 | the same for a DEREGISTER cascade |
| `Omnipotence.NotifyAllKeepsSync` | implementations/slims/slims/vk/children.go:255-259 | the DEREGISTERs of a bulk removal, in any order, take exactly those names from the parent's record |
| `Omnipotence.RegisterAllKeepsSync` | implementations/slims/slims/vk/requests.go:46-61 | handing up services adds exactly those names to the new parent's record |
| `Omnipotence.AdvanceKeepsSync` | implementations/slims/slims/vk/handlers.go:389-728 | every step with its cascade, a MERGE with a root that lists nothing and any handling of INCREMENTs included, leaves every parent's record of a child equal to the names that child lists |
| `Omnipotence.ListsExactlyWhatIsBelow` | README.md:66-68 | in such a vault a VK lists a name exactly when a leaf under it has registered it |
| `Omnipotence.RootOmnipotence` | README.md:66-68 | in every vault reached from new VKs by JOIN, REGISTER, DEREGISTER, LEAVE, expiry, MERGE with roots that list nothing, and INCREMENTs, each VK, so the root, lists exactly the names registered at it or below it on record all the way |
| `WholeTree.KnowsItsTreeIff` | README.md:66-68 | in such a vault a VK lists exactly the names registered anywhere in the tree of parent links below it if and only if it lists whatever the VKs off record in that tree list |
| `WholeTree.AdvanceKeepsRecords` | implementations/slims/slims/vk/children.go:27-36 | every step but the expiry of a child VK's record keeps every VK that has a parent on its parent's record |
| `WholeTree.EveryoneKnowsItsTree` | README.md:66-68 | so in every vault reached from new VKs without such an expiry each VK, so the root, lists exactly the names registered anywhere in its tree |
| `FailingRuns.ExpiryHidesService` | implementations/slims/slims/vk/children.go:27-36 | a concrete run from new VKs: after a record expires the root does not list a service of its tree, and a LIST at the VK it is registered at is answered without it |
| `Omnipotence.MergeKeepsOmniscienceIff` | implementations/slims/slims/vk/requests.go:116-143 | after a MERGE every VK lists exactly what is registered under it if and only if the requester lists every name the absorbed root lists |
| `Omnipotence.MergeKeepsSyncIff` | implementations/slims/slims/vk/requests.go:116-143 | a MERGE leaves every parent's record equal to what the child lists exactly when the absorbed root listed nothing |
| `Omnipotence.MergeIsSound` | implementations/slims/slims/vk/requests.go:116-143 | an accepted MERGE keeps every other invariant of the run theorems, whatever the absorbed root lists |
| `Omnipotence.MergeHidesService` | implementations/slims/slims/vk/requests.go:116-143 | a concrete run from new VKs after which a service registered under the new root is not listed there |
| `Routing.GetRefinesWalk` | implementations/slims/slims/vk/handlers.go:198-270 | a GET is answered where the walk up the parent chain stops, first VK that knows the service or last within max(1, limit), exactly when everyone on the way takes it; cycles allowed |
| `Routing.GetStops` | implementations/slims/slims/vk/handlers.go:223-225 | the walk always stops within the hop limit, whatever the links look like |
| `Routing.GetIsAnswered` | implementations/slims/slims/vk/handlers.go:227-264 | with rising heights and common versions every GET from outside is answered there, with an address listed for the service if it is known |
| `Routing.ListRefinesWalk` | implementations/slims/slims/vk/handlers.go:119-196 | a LIST is answered at min(max(1, count), distance to the root) on the chain with every name listed, exactly when everyone on the way supports it, is new to the token and is met once |
| `Routing.ListStops` | implementations/slims/slims/vk/handlers.go:148-150 | a climb to the root or the last hop always ends, whatever the links look like |
| `Routing.ListIsAnswered` | implementations/slims/slims/vk/handlers.go:140-183 | with rising heights and a fresh token every LIST from outside is answered, where its climb ends, with every name listed there |
| `Routing.ListedNamesAreOffered` | implementations/slims/slims/vk/handlers.go:187-196 | the names in a LIST answer are exactly those some child offers |
| `Discovery.EveryoneHasARoot` | README.md:66-68 | every VK has a root above it, no further up than 65535 minus its height |
| `Discovery.ListedServiceIsFound` | README.md:66-68 | in every vault so reached, a GET at any VK with hops enough to reach its root finds any service the root lists, on the way up, with at least one address |
| `Discovery.EveryServiceIsFound` | README.md:66-68 | unless a record has expired, it finds any service registered anywhere in the tree of its root |
| `Discovery.ListNamesTheWholeVaultIff` | README.md:66-68 | in every vault so reached, a LIST with a fresh token and hops enough is answered by the root with exactly the names registered under it, and these are all names registered in its tree if and only if it lists whatever the VKs off record there list |
| `Discovery.ListNamesTheWholeVault` | README.md:66-68 | unless a record has expired, the answer holds exactly the names registered anywhere in the tree |
| `Provenance.AddressesWereRegistered` | implementations/slims/slims/vk/handlers.go:666-682 | in every vault so reached, every address a VK lists for a name was registered for that name by some leaf earlier in the run |
| `Provenance.ListedIsOffered` | implementations/slims/slims/vk/handlers.go:227-249 | where every parent's record of a child holds only addresses the child lists, every address a VK lists is offered for that name by a leaf under it |
| `Provenance.GetAnswerIsOffered` | implementations/slims/slims/vk/handlers.go:227-264 | there, every address in an answer to a GET is offered for that name by a leaf under the VK that answers |
| `Provenance.DeregisterStaysTruthfulIff` | implementations/slims/slims/vk/children.go:221-240 | a DEREGISTER that leaves the name another provider stops at the VK, and the parent's address is still one the VK lists if and only if a provider that remains has it |
| `Provenance.LossStaysTruthfulIff` | implementations/slims/slims/vk/children.go:174-297 | the same for a child that leaves or expires and a service that goes stale, for all the names it takes |
| `FailingRuns.StaleAddressIsHandedOut` | implementations/slims/slims/vk/children.go:221-240 | a concrete run from new VKs, the child still on its parent's record, after which a GET is answered with an address no leaf offers |
| `Versions.New` | implementations/slims/slims/protocol/version/version.go:35-43 | a version is made exactly when both halves fit in four bits, and is the one asked for |
| `Versions.BytesAreBitwise` | implementations/slims/slims/protocol/version/version.go:30-48 | the arithmetic forms equal the shifts and masks of the source |
| `Versions.ByteRoundTrips` | implementations/slims/slims/protocol/version/version.go:30-48 | decoding an encoded version keeps the low four bits of each half, so it is exact for four-bit versions only; encoding a decoded byte is exact |
| `Versions.ByteIsMonotone` | implementations/slims/slims/protocol/version/version.go:30-32 | for four-bit versions byte order is version order |
| `Versions.NewSet` | implementations/slims/slims/protocol/version/version.go:59-74 | the set holds each version as often as given and knows the highest |
| `Versions.SupportsIsMembership` | implementations/slims/slims/protocol/version/version.go:77-82 | the two-level lookup agrees with membership in the list given |
| `Versions.HighestIsSupported` | implementations/slims/slims/protocol/version/version.go:85-87 | the highest version is supported exactly when the list is not empty |
| `Versions.AsBytes` | implementations/slims/slims/protocol/version/version.go:90-111 | a descending permutation of the versions' bytes, whatever order the majors come in |
| `Versions.FirstByteIsHighestIff` | implementations/slims/slims/protocol/version/version.go:90-111 | its first byte is the highest version's if and only if no version's low four-bit halves are above those of the highest |
| `Versions.FirstByteIsHighest` | implementations/slims/slims/protocol/version/version.go:90-111 | so for four-bit versions its first byte is always the highest version's |
| `Versions.WideVersionsMisorder` | implementations/slims/slims/protocol/version/version.go:30-32 | 16.0 encodes below 1.0 |
| `Wire.TypeByteIsBitwise` | implementations/slims/slims/protocol/protocol.go:97-106 | setting and clearing the shorthand bit equal the masks of the source |
| `Wire.SerializeHeader` | implementations/slims/slims/protocol/protocol.go:88-129 | a header is 2 bytes with shorthand and 10 without: version, shorthand bit, seven-bit type, and the ID in network byte order |
| `Wire.Reader.ReadByte` | implementations/slims/slims/protocol/protocol.go:194-204 | yields the next byte and consumes it, or reports the end |
| `Wire.ReadId` | implementations/slims/slims/protocol/protocol.go:226-235 | OR-ing eight bytes into place gives the big-endian ID; a short read names the byte the source names |
| `Wire.Deserialize` | implementations/slims/slims/protocol/protocol.go:191-240 | consuming the reader byte by byte equals parsing the byte string, and leaves the payload unread |
| `Wire.HeaderRoundTrip` | implementations/slims/slims/protocol/protocol.go:88-240 | parsing a serialized packet gives the header with version halves mod 16, type mod 128 and ID 0 under shorthand, and the payload; exactly the headers in range survive |
| `Wire.ParseFailsIff` | implementations/slims/slims/protocol/protocol.go:206-237 | parsing fails exactly on inputs shorter than the header their second byte announces, and names the byte the source names |
| `Wire.ReserializeIsPrefix` | implementations/slims/slims/protocol/protocol.go:88-240 | serializing a parsed header gives back the consumed bytes |
| `Wire.ValidateNamesIssues` | implementations/slims/slims/protocol/protocol.go:132-150 | validation names every issue a header has once and no other: major or minor version above 15, type 0, an ID beside shorthand |
| `Wire.ValidatedSurvives` | implementations/slims/slims/protocol/protocol.go:132-150 | of the headers with a seven-bit type it passes exactly those that survive the wire and have a type |
| `Wire.ValidatedRoundTrip` | implementations/slims/slims/protocol/protocol.go:132-150 | a validated header survives the wire exactly when its type fits in seven bits |
| `Wire.ValidationMissesWideTypes` | implementations/slims/slims/protocol/protocol.go:141-143 | type 200 is validated and arrives as 72 |
| `Wire.FramingRoundTrip` | implementations/slims/slims/protocol/protocol.go:293-324 | header and payload arrive as sent exactly when the packet fits the receive buffer |
| `ProofTables.PutIsExact` | implementations/proof/proof/children.go:226-251 | adding a provider to a list changes that child's entry only and keeps children distinct |
| `ProofTables.DropIsExact` | implementations/proof/proof/children.go:160-165 | deleting a child from a provider list removes its entry only |
| `ProofTables.AddServiceIndexes` | implementations/proof/proof/children.go:201-263 | a registration succeeds exactly for a child VK and for a leaf with a stale time or the service on record already; it keeps every recorded service in the index exactly once, with the leaf's address for leaves, and changes one entry |
| `ProofTables.AddServiceRecords` | implementations/proof/proof/children.go:201-374 | which error is given otherwise; on success the record has the service, a leaf's with the new address and the stale time given or else the one before, a child VK's with the address it first gave; nothing else on any record changes |
| `ProofTables.NewChildrenAreRecorded` | implementations/proof/proof/children.go:93-195 | a new leaf or child VK is on record without services, the VK at the address it gave; a known one stays as it is |
| `ProofTables.LeafTimersAreRecorded` | implementations/proof/proof/children.go:107-330 | the service timer takes that service off the leaf's record; the leaf timer drops the leaf exactly if it has no services; no other child changes |
| `ProofTables.VKTimerIsRecorded` | implementations/proof/proof/children.go:138-187 | the timer of a child VK drops its record and no other |
| `ProofTables.TimersIndex` | implementations/proof/proof/children.go:107-120 | new leaves and both leaf timers keep it so |
| `ProofTables.AddVKBackedIff` | implementations/proof/proof/children.go:130-195 | a new child VK has no entry it did not register exactly when no earlier node left one under its ID |
| `ProofTables.PruneVKIsExact` | implementations/proof/proof/children.go:142-187 | pruning a child VK removes its entries, all of them if it registered them, and nobody else's |
| `ProofTables.DoKeepsBackedIff` | implementations/proof/proof/children.go:93-374 | every operation keeps every index entry backed by a record, for leaves and VKs, except exactly the timer of a leaf service that is on record |
| `ProofTables.StaleEntriesStay` | implementations/proof/proof/children.go:311-330 | the leaf service timer drops the record and leaves the index entry with its address |
| `ProofTables.IndexedAlways` | implementations/proof/proof/children.go:93-374 | over every run, with no assumption on IDs, every recorded service is indexed exactly once, lists are never empty and never repeat a child |
| `ProofChildren.Children.AddLeaf` | implementations/proof/proof/children.go:93-124 | in-place form, and what the ID already was |
| `ProofChildren.Children.AddVK` | implementations/proof/proof/children.go:130-195 | in-place form, and what the ID already was |
| `ProofChildren.Children.AddService` | implementations/proof/proof/children.go:201-263 | the search loop and both branches equal the specification, errors included |
| `ProofChildren.Children.AddServiceToLeaf` | implementations/proof/proof/children.go:271-339 | an unparsable stale time is accepted exactly for a service the leaf already has, which keeps its old one |
| `ProofChildren.Children.AddServiceToVK` | implementations/proof/proof/children.go:348-374 | a child VK keeps the address it first gave |
| `ProofChildren.Children.PruneLeafService` | implementations/proof/proof/children.go:311-330 | in-place form of the service timer |
| `ProofChildren.Children.PruneLeaf` | implementations/proof/proof/children.go:107-120 | in-place form of the leaf timer |
| `ProofChildren.Children.PruneVK` | implementations/proof/proof/children.go:138-187 | the prune loop, visiting the services in any order, equals one bulk removal |

## Left out

- Sockets, contexts, deadlines, goroutines and logging: I/O. Sends appear as values or flags.
- Protobuf encoding, address and duration parsing: library code; bodies are datatypes with a malformed case.
- Real time and the inside of the expiring table: expiry is a step that can happen at any moment.
- Interleavings inside a locked section, and the window in which `Join` iterates over services without the lock.
- The bad-heartbeat count that a LIST which cannot be forwarded adds to; routing assumes forwards are delivered.
- The check in `Join` that the parent is still the same while services are handed up: the exchange is one step.
- Omnipotence.AdvanceKeepsSync: covers no lost REGISTER or DEREGISTER, which the source logs and does not repeat, and
  no MERGE with a root that lists services, after which Omnipotence.MergeKeepsSyncIff shows it would not hold.
- MergeWave.MergeWaveOutcome: covers no other step during the wave; heights still rise then, by Vault.HeightsRiseAlways.
- VaultKeepers.VaultKeeper.CountProviders: stops before STATUS is trimmed to the packet size.
- Wire.Deserialize: covers no reader error other than the end of the data.
- VK heartbeats, autoheartbeat frequency, fault texts and snapshots: they change no table and are easy.
- The REST handlers of Proof, its VK and its Python leaf, the client package, the magefile and images.
- Version negotiation and rivering: described in the documentation, not implemented.
