# A verified model of the OpenNebula provider for Omni

This project models the Omni infrastructure provider for OpenNebula, and the `labctl` tool beside it, in
Dafny, and proves what the code promises about them. `dafny verify dfyconfig.toml` checks everything.

## The parts

- **Names and the life of a VM.** Machines get their names from reservations in a store that up to five
  workers share. `Reservations` and `Naming` hold the values, `Allocator` the methods that list, create,
  recover and release reservations while others use the same store, and `Deprovision` the removal of a VM and
  its name. `Lifecycle` puts all of it into one state machine: any number of machines, each with a program
  counter, one store, one OpenNebula, every remote call an atomic action, any interleaving, with failing steps,
  crashes and lost replies. `LifecycleSafety` proves that live VMs never share a name, that every live VM's name
  is backed by a reservation of its own machine, and that names are stable. `LifecycleSimulation` runs the methods
  inside the machine: wherever other machines' actions bring about what a method meets, the method's own actions
  lead to the state its contract describes. `LifecycleLeaks` says exactly when a machine loses track of a
  reservation and comes to own a second one. `LifecycleLosses` drops two assumptions, that nobody else removes
  reservations and that every finished release is saved; `LifecycleLossLaws` proves that such runs stay safe as long as
  nobody takes a lost or freed id that its machine still uses, and that this is exactly when ids get mixed up.
  `LifecycleBoundary` shows, for three assumptions, a run that breaks each once and ends with two live VMs of one name.
- **The state encoding.** `Varint`, `Wire` and `Specs` define the protobuf encoding of the two state messages
  from their table of fields (Protocol Buffers Encoding guide, sections "Base 128 Varints", "Message Structure",
  "Length-Delimited Records", "Packed Repeated Fields" and "Last One Wins"). `WireLaws` and `WireRoundTrip` prove
  the laws; `VtProto` proves the generated code against the definition: a marshaller that fills a buffer from its
  end, an unmarshaller that walks an index and updates the message in place. `SpecRecords` declares the two messages as
  records with typed fields and ties each field to its row of the table; `WireRecords` says what any one record does to a
  message, and `WireLayout` which bytes are written, both without reference to the other direction.
- **Images.** `ImageLock` is the table of import locks with eviction by age, `ImportRuns` the state machine of
  concurrent imports around it, `ImportHarms` the exact condition for a second import, `ImageManager` the resolution of
  one image and its forecast, `ImageLaws` its decisions in terms of what was asked and reported.
- **Requests.** `Validation` fills in and checks provider data in place, `Ipv4` reads and writes dotted addresses,
  `Placement` chooses a host, `Plan` resolves a whole plan and its dry run; `ValidationLaws` and `PlanLaws` hold
  what follows. `ValidationChecks` and `PlanChecks` say when exactly each check fails and what comes out if none does.
- **labctl.** `LabEngine` is the phase engine over its persistent records, `LabLaws` what its runs come to.

`Text`, `OpenNebula` and `Wrappers` are shared vocabulary. `TextLaws` and `NamingLaws` say letter by letter what names,
cases and white space come to.

## Assumptions of the lifecycle

They are the predicate `Lifecycle.Allowed` and the shape of `Lifecycle.Step`:

- steps of one machine follow one another, a VM is instantiated only once a name has been saved, and steps of
  different machines interleave in any way;
- a finished instantiation or release is saved before anything else happens to its machine (for releases dropped in
  `LifecycleLosses`; a destroy that took effect while its reply is lost is a release that is not saved); every other
  step may crash or fail at any point, before or after its effect on the store;
- a step that fails has its machine saved with what it has set so far, the UUID above all; a crash saves nothing;
- `InstantiateTemplate` creates a VM or fails, never both; VM ids are not 0, fit an int32 and are not used twice;
  a VM that is done or missing stays so;
- nobody but the provider removes reservations (dropped in `LifecycleLosses`), and there are fewer than 2^31 - 1 of
  them;
- machines are named by the strategy `cluster-role-sequence`, and the state resource has the id of its request.

## Where the code differs from what is said of it

- A machine can come to own two reservations: `assignMachineUUID` draws the UUID and makes the reservation in one step,
  so a crash before the first save loses the UUID, and the next assignment draws another one and allocates again
  (`LifecycleLeaks.CrashLeavesTwoReservations`). No other event does that (`LifecycleLeaks.LeaksExactlyWhen`,
  `LifecycleLeaks.SecondReservationExactlyWhen`), and the first reservation is never released
  (`LifecycleLeaks.LeakIsPermanent`).
- A lost reply of a destroy needs no crash: the machine keeps the id it has freed, and if another machine takes that id,
  two live VMs can come to share a name (`LifecycleBoundary.UnsavedReleaseBreaksSafety`,
  `LifecycleSimulation.LostReplyIsUnsavedRelease`). It comes to the same as an outside loss
  (`LifecycleLossLaws.UnsavedReleaseIsALoss`) and is harmless until then (`LifecycleLossLaws.LossyRunsAreSafe`,
  `LifecycleLossLaws.UsurpsExactlyWhen`).
- Validation is a normal form only for v1alpha2 data whose manual mode did not come in through a network profile:
  `ValidationLaws.ValidationIsANormalForm` says exactly when a second validation succeeds, and
  `ValidationLaws.SomeSlipPast` shows data that does not pass twice.
- A plan agrees with its dry run only when there is a datastore (`PlanLaws.ExplainNeedsDatastore`,
  `PlanLaws.PlanWithoutDatastore`). A plan that warnings alone refuse counts as failed where the dry run shows warnings
  (`PlanLaws.RefusedForWarnings`), and a host with id 0 is always refused (`PlanLaws.HostZeroIsRefused`).
- `docs/api/provider-data.mdx:124` offers the storage profile `ceph-rbd`; no datastore the client reports can satisfy
  it (`PlanLaws.SupportedProfiles`).
- A checksum belongs to the image data exactly when none is recorded and either checksums are required or the published
  one that is configured cannot be had (`ImageManager.ChecksumBelongsToData`).
- `resume` that finds nothing to do differs from `run_all` when the configuration has changed
  (`LabLaws.ResumeOfNothing`, `LabLaws.StaleRecordsAreNotResumed`).
- An import that outlasts `staleAfter`, or a lookup that fails inside the lock, can import an image twice
  (`ImportRuns.StaleKeyImportsTwice`, `ImportRuns.UnansweredLookIsReached`; exactly when, says
  `ImportHarms.TwiceExactlyAfterHarm`). Nothing excludes concurrent imports when the
  import lock is disabled: `ImageLock.ImportLocks.Lookup` then hands out no mutex, and `ImportRuns` is about an enabled
  lock.

## Model

| member | source | states |
|---|---|---|
| LifecycleSafety.ReachableIsSafe | internal/pkg/provider/allocator.go:57-99 | in every state any allowed run reaches, live VMs have different names, each backed by a stored reservation of its machine, and a UUID has at most one reservation |
| LifecycleSafety.StepKeepsInv | internal/pkg/provider/provision.go:122-278 | every action of any machine, allowed in its state, keeps the ownership invariant of store, VMs and workers |
| LifecycleSafety.NoLiveNameIsFreed | internal/pkg/provider/deprovision.go:29-62 | no action removes a reservation whose name a live VM carries |
| LifecycleSafety.StoreChange | internal/pkg/provider/allocator.go:226-294 | the store changes only by a create over nobody's reservation or by a machine destroying its own; the swallowed conflict and the destroy without owner check never hit another machine's |
| LifecycleSafety.DestroysItsOwn | internal/pkg/provider/allocator.go:258-294 | the id a release destroys is a reservation with the machine's own UUID |
| LifecycleSafety.RecreateIsNeverReached | internal/pkg/provider/allocator.go:185-220 | without outside losses no machine gets to recreate a reservation |
| LifecycleSafety.InstantiatesOnce | internal/pkg/provider/provision.go:124-126 | a machine about to be instantiated has no live VM, because of the guard on the VM id |
| LifecycleSafety.ActorKnows | internal/pkg/provider/deprovision.go:229-252 | a machine forgets a VM id only when that VM is gone |
| LifecycleSafety.ReservationStays | internal/pkg/provider/allocator.go:258-294 | a reservation is removed by nothing but its own machine's release, and changed by nothing |
| LifecycleSafety.NameIsStable | internal/pkg/provider/allocator.go:169-224 | for a UUID: over any run without its machine's release, every assignment under a UUID that has a reservation ends with that reservation and name, and no second one is made under it; `LifecycleLeaks.MachineKeepsName` says the same of a machine |
| LifecycleSafety.FoundByUuid | internal/pkg/provider/allocator.go:199-212 | the search by UUID takes over the reservation it finds and leaves the store alone |
| LifecycleSafety.CrashedAssignmentRecovers | internal/pkg/provider/provision.go:58-79 | after a crash at the end of an assignment the next one restores the very state before the crash, by the saved id or by the saved UUID; without a saved UUID nothing does (`LifecycleLeaks.RecoversExactlyWhen`) |
| LifecycleLeaks.LeaksExactlyWhen | internal/pkg/provider/provision.go:58-79 | in one step a reservation is left without a machine that works under its UUID exactly if its machine crashes before it has saved that UUID |
| LifecycleLeaks.LeakedStays | internal/pkg/provider/allocator.go:258-294 | no action removes, changes or takes up a leaked reservation |
| LifecycleLeaks.LeakIsPermanent | internal/pkg/provider/allocator.go:258-294 | nor does any run, and no machine holds its id again |
| LifecycleLeaks.RunLeaksExactlyWhen | internal/pkg/provider/provision.go:58-79 | over any run a machine ends with a leaked reservation exactly if it had one or some crash of the run forgot one |
| LifecycleLeaks.SecondExactlyWhen | internal/pkg/provider/allocator.go:57-98 | in one step a machine comes to own a second reservation exactly if its create lands while it has a leaked one |
| LifecycleLeaks.SecondReservationExactlyWhen | internal/pkg/provider/provision.go:58-79 | in any state runs reach, a machine comes to own more than one reservation exactly if its create lands after a crash that came before the first save of its UUID and forgot a reservation |
| LifecycleLeaks.MachineKeepsName | internal/pkg/provider/provision.go:58-79 | over any run without its own release a machine keeps its UUID, its name and its one reservation exactly if no crash forgot the UUID before it was saved |
| LifecycleLeaks.RecoversExactlyWhen | internal/pkg/provider/provision.go:58-79 | after a crash at the end of an assignment some run leads the machine back to its reservation exactly if its UUID was saved |
| LifecycleLeaks.CrashLeavesTwoReservations | internal/pkg/provider/provision.go:58-79 | an allowed run from the start after which one machine owns two reservations, the first of them leaked |
| LifecycleLosses.StepKeepsLossInv | internal/pkg/provider/allocator.go:185-291 | with any losses from outside and releases that are never saved, every action that takes no lost or freed id still in use keeps the state sound, the lost reservations in use counted in |
| LifecycleLossLaws.LossyRunsAreSafe | internal/pkg/provider/allocator.go:226-291 | in every run with such losses and unsaved releases, at any point and of any reservation, live VMs have different names, each backed by a reservation of its machine that is stored or lost |
| LifecycleLossLaws.UnsavedReleaseIsALoss | internal/pkg/provider/allocator.go:282-291 | destroying and then crashing unsaved leaves the state of crashing first and losing the reservation from outside, and all four actions are permitted |
| LifecycleLossLaws.UsurpsExactlyWhen | internal/pkg/provider/allocator.go:249-291 | of all actions exactly those that take a lost or freed id still in use leave some machine with an id, held or about to be destroyed, that belongs to another UUID |
| LifecycleLossLaws.RecreationRestores | internal/pkg/provider/allocator.go:226-256 | what is recreated in such a run is the lost reservation with its name, UUID and owner; only the request id is replaced, and nothing else changes |
| LifecycleLossLaws.NextAssignmentRestores | internal/pkg/provider/allocator.go:174-193 | a machine that has lost its reservation recreates it in its next assignment, whatever others are permitted to do in front of its get and of its create |
| LifecycleLossLaws.RecreatesIsRecreate | internal/pkg/provider/allocator.go:226-256 | what `RecreateReservation` promises, conflict or not, is the recreation of the lifecycle |
| LifecycleBoundary.LiveVmsAreReached | internal/pkg/provider/provision.go:247-276 | allowed runs from the empty state do lead to live VMs |
| LifecycleBoundary.UnsavedReleaseBreaksSafety | internal/pkg/provider/allocator.go:282-291 | a crash between destroying a reservation and saving lets the machine later destroy another machine's reservation, and two live VMs share a name |
| LifecycleBoundary.UnsavedInstantiationBreaksSafety | internal/pkg/provider/provision.go:247-276 | a crash between creating a VM and saving its id gives a machine two live VMs of one name |
| LifecycleBoundary.SwallowedConflictBreaksSafety | internal/pkg/provider/allocator.go:249-255 | after an outside loss the swallowed conflict lets two machines go live under one name |
| LifecycleSimulation.PlaysAreRuns | internal/pkg/provider/allocator.go:22-102 | whatever a machine's remote operations meet, if others' allowed actions bring it about, the machine's own actions are allowed too and all of it is a run of the lifecycle |
| LifecycleSimulation.AllocationIsPlayed | internal/pkg/provider/allocator.go:57-101 | the retry loop of `AllocateName`, up to 32 listings and creates with any conflict or lost reply, ends inside the lifecycle in the store and machine of its contract |
| LifecycleSimulation.LoadIsPlayed | internal/pkg/provider/allocator.go:169-224 | so does `LoadExistingReservation`, with one get or one search; without outside losses it recreates nothing |
| LifecycleSimulation.AssignmentIsSimulated | internal/pkg/provider/provision.go:58-79 | so does a whole `AssignMachineUUID`, from any sound state, on success and on every failure |
| LifecycleSimulation.ReleaseIsPlayed | internal/pkg/provider/allocator.go:258-294 | so does `ReleaseReservation`, by the held id or by a search, replies lost or not |
| LifecycleSimulation.PassIsPlayed | internal/pkg/provider/deprovision.go:64-143 | so does a pass over a VM of up to five calls, when the answers to looks are true of the VM |
| LifecycleSimulation.DeprovisioningIsSimulated | internal/pkg/provider/deprovision.go:29-62 | so does a whole `DeprovisionMachine`; it is an allowed run unless the reply of the last operation is lost, and then a run with an unsaved release |
| LifecycleSimulation.LostReplyIsUnsavedRelease | internal/pkg/provider/allocator.go:289-291 | a destroy that took effect while its reply was lost leaves the store and the machine of an unsaved release: not an allowed run, but one of those with losses |
| LifecycleSimulation.AlonePlays | internal/pkg/provider/allocator.go:57-101 | a machine that nobody disturbs always has such a run, whatever becomes of its store operations and for any answers to its calls that are true |
| Allocator.AllocateName | internal/pkg/provider/allocator.go:57-101 | giving up means at least 32 creates of others landed in its 32 disjoint list-to-create windows; success adds exactly one reservation, over nobody's, whose id is the first one of its prefix and role, counting from 1, that the last listing does not have; other failures mean a failed store operation, and leave the machine alone |
| Allocator.AllocatedIsFirstFree | internal/pkg/provider/allocator.go:57-98 | an allocation names the machine after the first id of its prefix and role that the listing does not have, and stores that reservation with the request, UUID and machine it was made for |
| Allocator.TryAllocate | internal/pkg/provider/allocator.go:58-98 | one attempt in all its cases: a conflict means the wanted id was absent from the listing and there at the create |
| Allocator.TriedMeans | internal/pkg/provider/allocator.go:57-98 | what each end of an attempt means for the loop around it |
| Allocator.CreatedMeanwhile | internal/pkg/provider/allocator.go:84-87 | an id can only turn up between list and create if somebody's create landed |
| Allocator.WantedKeepsIds | internal/pkg/provider/allocator.go:63-82 | storing an allocation keeps every id the spelling of its own prefix, role and ordinal while ordinals fit an int32 |
| Allocator.NextAvailableOrdinal | internal/pkg/provider/allocator.go:305-323 | the loops end at the least positive ordinal that no reservation of the same prefix and role has, whose id is the first that is not in the listing; it is at most one more than there are such reservations |
| Allocator.CollectUsed | internal/pkg/provider/allocator.go:306-316 | a number is in the set exactly if it is positive and a reservation with this prefix and this role has it, whatever the order of the listing |
| Allocator.LoadExistingReservation | internal/pkg/provider/allocator.go:169-224 | every case, with store, clock and machine: a held stored reservation is taken over, a lost one recreated if the machine knows enough, otherwise the UUID decides, and a reservation not found is recreated if the machine still knows its name |
| Allocator.LoadedMeans | internal/pkg/provider/allocator.go:169-224 | what the search finds is stored and names the machine, field by field; a lost reservation is rebuilt under its id when prefix, role and ordinal are known; nothing found means the UUID owns nothing and the store is as others left it; failures change nothing on the machine |
| Allocator.LoadByUuid | internal/pkg/provider/allocator.go:195-223 | the search by UUID in all its cases, with clock and store |
| Allocator.FindByUuid | internal/pkg/provider/allocator.go:204-212 | finds a reservation of the UUID exactly when there is one |
| Allocator.RecreateReservation | internal/pkg/provider/allocator.go:226-256 | creates, if its id is free, the reservation that says of the machine what the machine knows, under the id spelled from it; swallows a conflict, fails only with the store |
| Allocator.RecreatedOverNobody | internal/pkg/provider/allocator.go:249-255 | the machine holds its own reservation afterwards exactly when nobody else's had the id |
| Allocator.ResolveVMName | internal/pkg/provider/allocator.go:22-102 | strategy, then the search in all its cases, recreation included, then allocation: nothing is added when a reservation exists, and a new name is the least free one of a listing |
| Allocator.NameFromScratch | internal/pkg/provider/allocator.go:42-101 | allocation behind the search: a failed look-up of the request, then a bad cluster name, fail with their own error before the store is touched |
| Allocator.AssignMachineUUID | internal/pkg/provider/provision.go:58-79 | the UUID is drawn once; assigning again gives the same machine state; a reservation made before a crash is found by UUID |
| Allocator.ReleaseReservation | internal/pkg/provider/allocator.go:258-294 | destroys the held id, or one with the machine's UUID, or nothing; a missing reservation is no failure |
| Allocator.MachineState.ApplyReservation | internal/pkg/provider/allocator.go:296-303 | the machine takes over the naming fields of a reservation |
| Reservations.LeastFreeFrom | internal/pkg/provider/allocator.go:318-322 | the unbounded loop stops, at the least free ordinal, by counting |
| Reservations.NextOrdinalBound | internal/pkg/provider/allocator.go:305-323 | the next ordinal is at most the number of matching reservations plus one |
| Reservations.NextOrdinalIsInt32 | internal/pkg/provider/allocator.go:77-77 | below 2^31 - 1 reservations the int32 field holds the ordinal |
| Reservations.AllocatedNameFits | internal/pkg/provider/naming.go:61-79 | with at most 9998 matching reservations an allocated name has at most 63 octets (section 2.3.4 of RFC 1035) |
| Reservations.NextIdIsFree | internal/pkg/provider/allocator.go:63-64 | the id of the next ordinal is not in the listing it was computed from |
| Reservations.NextOrdinalIsFirstFree | internal/pkg/provider/allocator.go:305-327 | in ids alone: every smaller ordinal of the prefix and role has its id in the listing, and the next one has not |
| Reservations.NamesAreDistinct | internal/pkg/provider/allocator.go:325-327 | two reservations never carry one VM name |
| Reservations.RecreateRestores | internal/pkg/provider/allocator.go:226-247 | what recreation rebuilds is the applied reservation, field by field, under its own id |
| Naming.SequenceVMNameInjective | internal/pkg/provider/naming.go:130-132 | a VM name determines prefix, role and ordinal |
| Naming.ReservationResourceIDInjective | internal/pkg/provider/allocator.go:325-327 | so does a reservation id |
| Naming.SameNameSameReservation | internal/pkg/provider/allocator.go:325-327 | equal names have equal reservation ids |
| Naming.SequenceVMNameFits | internal/pkg/provider/naming.go:61-79 | with a normalized prefix and an ordinal of at most four digits the name fits 63 octets |
| Naming.NormalizeClusterPrefix | internal/pkg/provider/naming.go:61-79 | the lower-case letters and digits in order, refused when empty or over 57 |
| Naming.NormalizedPrefixFixed | internal/pkg/provider/naming.go:61-79 | a normalized prefix is its own prefix, so a cluster of that name shares it |
| Naming.CanonicalVMName | internal/pkg/provider/naming.go:27-58 | the loop over runes computes the canonical name |
| Naming.CanonicalIsLabel | internal/pkg/provider/naming.go:27-58 | the name is 1 to 63 of a-z, 0-9 and single inner dashes (section 2.1 of RFC 1123) |
| Naming.CanonicalFixed | internal/pkg/provider/naming.go:27-58 | a name of that shape is its own canonical name |
| Naming.CanonicalIdempotent | internal/pkg/provider/naming.go:27-58 | canonical names are canonical, for any hash of eight hexadecimal digits |
| Naming.ControlPlaneSetInferred | internal/pkg/provider/naming.go:101-109 | c + "-control-planes" gives back c and the control-plane role |
| Naming.WorkerSetInferred | internal/pkg/provider/naming.go:110-116 | c + "-workers-" + s gives back c and the worker role, for c without "-worker" and ids that do not end in "-control-planes" |
| NamingLaws.PrefixOfParts | internal/pkg/provider/naming.go:61-69 | the prefix of a name is put together from those of its parts |
| NamingLaws.PrefixOfOne | internal/pkg/provider/naming.go:61-69 | of one character: a letter in lower case, a digit as it is, of any other nothing |
| NamingLaws.PrefixExactly | internal/pkg/provider/naming.go:71-79 | a cluster is refused exactly when no character of its name is kept, or more than 57 are |
| NamingLaws.OrdinalDigits | internal/pkg/provider/naming.go:130-132 | ordinals have at least two digits, denote their number and have no more leading zeros than that takes |
| NamingLaws.NamesOfProd | internal/pkg/provider/naming.go:130-132 | "prodcp01", "prodw02" and "name-reservation/prod/w/12" spelled out |
| NamingLaws.CollapseSplits | internal/pkg/provider/naming.go:32-43 | what stands behind a kept character is collapsed by itself |
| NamingLaws.RunIsOneDash | internal/pkg/provider/naming.go:37-42 | a run of other characters becomes one dash, or none behind a dash |
| NamingLaws.CanonicalExactly | internal/pkg/provider/naming.go:45-57 | the collapsed id without its outer dashes, "opennebula-node" for nothing, and the first 54 characters with the hash for more than 63 |
| NamingLaws.SetsExactly | internal/pkg/provider/naming.go:101-128 | which set names are unsupported, which have an empty cluster, and what stands in front of the suffix or the first marker otherwise |
| TextLaws.LettersHaveCases | internal/pkg/provider/naming.go:28-28 | the 26 letters and their two cases; `OthersHaveNoCase` and `ForeignCases` say the rest |
| TextLaws.TrimsBothEnds | internal/pkg/provider/deprovision.go:198-200 | trimming takes white space from both ends as far as it goes and nothing else |
| TextLaws.UpperIsFolded | internal/pkg/provider/deprovision.go:198-200 | comparing in capitals is comparing up to case, for names without I and K |
| Deprovision.DeprovisionMachine | internal/pkg/provider/deprovision.go:29-62 | the pass over the VM, then the release, in all their cases; all or nothing: success only after the last look found the VM unknown or in the state "DONE", in any case and trimmed, and the reservation, held or found by UUID, was destroyed; anything else leaves VM id and naming alone; with the VM gone and a working store it succeeds; a cleared machine stays as it is |
| Deprovision.EnsureVMDeleted | internal/pkg/provider/deprovision.go:64-143 | the calls it makes and the result, for any answers; deleted only if the last look found the VM unknown or "DONE" |
| Deprovision.PassMeans | internal/pkg/provider/deprovision.go:64-143 | at most five calls, all to one VM; deleted means that the last call found the VM unknown or in the state "DONE", in any case and trimmed; forced only in hard mode right after a listed state was seen; every failure is that of the last answer |
| Deprovision.GoneExactly | internal/pkg/provider/deprovision.go:194-200 | a look settles on gone exactly if the VM is unknown or its state reads "DONE", in any case and trimmed |
| Deprovision.ForcedExactly | internal/pkg/provider/deprovision.go:181-192 | which of the state names of the running machine ask for a forced delete, and only in hard mode |
| Deprovision.RetriesExactly | internal/pkg/opennebula/errors.go:84-87 | which failures of a request are temporary |
| Deprovision.DeleteAndConfirm | internal/pkg/provider/deprovision.go:85-142 | the same from the request for deletion on |
| Deprovision.ConfirmDeleted | internal/pkg/provider/deprovision.go:95-142 | the same for the second half, where done after a forced delete does not count |
| Deprovision.Observe | internal/pkg/provider/deprovision.go:65-83 | which answers end the pass, and how: an unknown VM always, one in the state "DONE" only where that counts, any failed look; the last look takes no notice of "DONE" |
| Deprovision.TerminateVM | internal/pkg/provider/deprovision.go:145-161 | a missing VM is no failure; other failures keep their class or ask for a retry |
| Deprovision.ForceDeleteVM | internal/pkg/provider/deprovision.go:163-179 | likewise |
| Deprovision.HardExactlyWhen | internal/pkg/provider/deprovision.go:202-227 | the mode is hard exactly when the machine says so, or says nothing, the configuration does, and the request does not object |
| Deprovision.ClearProvisionedState | internal/pkg/provider/deprovision.go:229-252 | all modelled fields but the UUID are cleared |
| Varint.Int32RoundTrip | api/specs/specs_vtproto.pb.go:613-613 | sign extension to 64 bits and truncation back |
| Varint.SizeOfIsLength | api/specs/specs_vtproto.pb.go:880-887 | the size computed from the bit length is the length of the varint |
| Varint.ReadEncode | api/specs/specs_vtproto.pb.go:1120-1137 | a varint reads back, with the index behind it |
| Varint.NegativeTakesTenBytes | api/specs/specs_vtproto.pb.go:613-613 | every negative int32 takes ten bytes |
| Varint.RoundsRead | api/specs/specs_vtproto.pb.go:1149-1164 | shifting and or-ing into 32 or 64 bits, where shifts by 32 and more give 0, comes to the number modulo the width |
| Varint.ReadVarint | api/specs/specs_vtproto.pb.go:1120-1137 | the loop reads what the definition reads, with its errors |
| Varint.EncodeBackward | api/specs/specs_vtproto.pb.go:612-614 | writes a varint just in front of an index and nothing else |
| Varint.EncodeForward | api/specs/specs_vtproto.pb.go:598-606 | writes a varint from an index on and nothing else |
| Wire.ReadRecord | api/specs/specs_vtproto.pb.go:1120-2497 | an accepted record advances the index within the input and keeps the kinds of the fields |
| Wire.Skip | api/specs/specs_vtproto.pb.go:2483-2497 | skipping an unknown record, groups included, advances within the input |
| WireLaws.UnmarshalConcat | api/specs/specs_vtproto.pb.go:1117-2504 | decoding b followed by c is decoding b, then c into the same message, whenever b is accepted |
| WireLaws.ReadRecordLocal | api/specs/specs_vtproto.pb.go:1120-2497 | reading a record depends on its own bytes only |
| WireRoundTrip.UnmarshalMarshalMerges | api/specs/specs_vtproto.pb.go:1117-2504 | decoding an encoded message into any message merges the two: scalars last one wins, repeated fields append, unknown bytes append |
| WireRoundTrip.RoundTrip | api/specs/specs_vtproto.pb.go:369-784 | encoding and decoding gives the message back, unknown records included |
| WireRoundTrip.DecodeEncodeDecode | api/specs/specs_vtproto.pb.go:2483-2497 | decoding, encoding and decoding again gives what the first decoding gave |
| WireRoundTrip.DecodedUnknown | api/specs/specs_vtproto.pb.go:2483-2497 | the unknown bytes of a decoded message are whole unknown records, so they survive |
| WireRoundTrip.FieldRoundTrip | api/specs/specs_vtproto.pb.go:1138-2482 | the same for one field of any kind |
| WireRecords.VarintRecord | api/specs/specs_vtproto.pb.go:1145-1164 | a varint record of a known field sets its number, its truth value, or appends one packed element |
| WireRecords.LengthRecord | api/specs/specs_vtproto.pb.go:1165-1196 | a length-delimited record replaces a string and appends to a repeated one |
| WireRecords.PackedRun | api/specs/specs_vtproto.pb.go:1834-1889 | a packed record appends all its numbers |
| WireRecords.FixedWidthRefused | api/specs/specs_vtproto.pb.go:1146-1148 | any other wire type is refused for every known field |
| WireRecords.BadTagsRefused | api/specs/specs_vtproto.pb.go:1138-1144 | a stray end of a group and a number no field can have are refused, with their errors |
| WireRecords.ShortInputRefused | api/specs/specs_vtproto.pb.go:1182-1193 | a length that the input does not have, or that no index reaches, is refused |
| WireRecords.UnknownRecord | api/specs/specs_vtproto.pb.go:2483-2497 | a record of an unknown field of any wire type is kept as it stands |
| WireRecords.GroupsNest | api/specs/specs_vtproto.pb.go:2483-2497 | a group in a group ends with its own end tag |
| WireLayout.EncodeIsVarint | api/specs/specs_vtproto.pb.go:612-614 | the bytes of a varint: groups of seven bits, lowest first, all but the last marked, no empty last one |
| WireLayout.VarintIsUnique | api/specs/specs_vtproto.pb.go:612-614 | no other bytes are like that |
| WireLayout.ReadExactly | api/specs/specs_vtproto.pb.go:1120-1137 | what any bytes read as: at most ten groups, the end of the input, or an overflow |
| WireLayout.Int32Exactly | api/specs/specs_vtproto.pb.go:1160-1160 | an int32 is what its 64 bits are modulo 2^32 |
| WireLayout.ScalarsWritten | api/specs/specs_vtproto.pb.go:771-782 | a scalar is written behind its tag, a zero one not at all |
| WireLayout.StringsWritten | api/specs/specs_vtproto.pb.go:736-744 | each element of a repeated field gets a record of its own, empty or not, in order |
| WireLayout.PackedWritten | api/specs/specs_vtproto.pb.go:591-615 | a packed field is one record of its numbers in order |
| WireLayout.MarshalSplits | api/specs/specs_vtproto.pb.go:387-784 | the fields come in the order of their numbers, what is unknown behind them |
| Specs.MachineSpecWellFormed | api/specs/specs_vtproto.pb.go:387-784 | the 44 rows of tag bytes, sizes and case labels agree with number and wire type; that the kinds are those of the declared fields is `SpecRecords.KindOfRow` |
| Specs.NameReservationSpecWellFormed | api/specs/specs_vtproto.pb.go:804-878 | the 9 rows likewise |
| Specs.MachineSpecRoundTrip | api/specs/specs_vtproto.pb.go:369-784 | every message of the kinds of the table survives encoding, with negative numbers, empty elements and packed ids; `SpecRecords.MachineRecordRoundTrip` says it of the declared record |
| Specs.NameReservationSpecRoundTrip | api/specs/specs_vtproto.pb.go:786-878 | every reservation likewise |
| SpecRecords.RecordIsTyped | api/specs/specs.proto:7-52 | every machine record is a message of the kinds of the table |
| SpecRecords.RecordOfItsMessage | api/specs/specs.proto:7-52 | and comes back from it, field by field |
| SpecRecords.MessageOfItsRecord | api/specs/specs.proto:7-52 | and every message of those kinds comes from a record |
| SpecRecords.KindOfRow | api/specs/specs.proto:7-52 | row n of the table has number n and the kind of the type that the declaration gives field n |
| SpecRecords.MachineVarint | api/specs/specs_vtproto.pb.go:1138-2482 | a varint record of field n sets the int32 or bool of that number, or appends to `networkIds`, and leaves every other field alone |
| SpecRecords.MachineString | api/specs/specs_vtproto.pb.go:1138-2482 | a string record sets the string of that number or appends to the repeated one, `networkNames` among them, and leaves every other field alone |
| SpecRecords.MachinePacked | api/specs/specs_vtproto.pb.go:1834-1889 | a packed record appends to `networkIds` |
| SpecRecords.MachineRecordRoundTrip | api/specs/specs_vtproto.pb.go:369-784 | every machine record survives being stored and read |
| SpecRecords.ReservationRecord | api/specs/specs_vtproto.pb.go:2505-2830 | the same for one record of a reservation |
| SpecRecords.ReservationRoundTrip | api/specs/specs_vtproto.pb.go:786-878 | and every reservation record survives |
| VtProto.SizeVT | api/specs/specs_vtproto.pb.go:880-1070 | the size is the length of the encoding |
| VtProto.MarshalToSizedBufferVT | api/specs/specs_vtproto.pb.go:387-784 | the backward writer never leaves the buffer, writes the encoding at its end and touches nothing in front of it |
| VtProto.PutPackedWindow | api/specs/specs_vtproto.pb.go:597-608 | the forward loop fills exactly the window reserved for it |
| VtProto.PutPacked | api/specs/specs_vtproto.pb.go:591-615 | a packed field ends at its index, nothing else is touched |
| VtProto.PutStrings | api/specs/specs_vtproto.pb.go:736-744 | repeated strings, last element first, come out in order |
| VtProto.PutFields | api/specs/specs_vtproto.pb.go:400-782 | the fields, last one first, come out in order |
| VtProto.MarshalVT | api/specs/specs_vtproto.pb.go:369-380 | a fresh buffer holds the encoding and nothing else |
| VtProto.EqualVT | api/specs/specs_vtproto.pb.go:136-317 | true exactly for equal messages |
| VtProto.ReadPackedAt | api/specs/specs_vtproto.pb.go:1834-1889 | the inner loop reads the packed field of the definition, with its errors |
| VtProto.SkipAt | api/specs/specs_vtproto.pb.go:2483-2497 | the loop skips what the definition skips |
| VtProto.MessageObject.UnmarshalVT | api/specs/specs_vtproto.pb.go:1117-2504 | the loop updates the message to what the definition decodes, or reports its error |
| VtProto.MessageObject.UnmarshalRecord | api/specs/specs_vtproto.pb.go:1120-2497 | one round of it |
| VtProto.MessageObject.UnmarshalField | api/specs/specs_vtproto.pb.go:1138-2482 | one case of it |
| ImageLock.ImportLocks.Lookup | internal/pkg/imagemanager/manager.go:285-307 | disabled, it hands out no mutex; enabled, a key seen at most `staleAfter` ago keeps its mutex, and one seen longer ago or never gets a new one; `waited` exactly for an old one; every other key older than that is gone |
| ImageLock.ImportLocks.Evict | internal/pkg/imagemanager/manager.go:292-297 | removes exactly the keys seen more than `staleAfter` ago from both maps, whatever the order |
| ImageLock.ImportLocks.Stamp | internal/pkg/imagemanager/manager.go:311-315 | stamps the key, in the time map alone |
| ImageLock.YoungKeyKeepsMutex | internal/pkg/imagemanager/manager.go:292-305 | a key last seen at most `staleAfter` ago keeps its mutex whatever is looked up |
| ImageLock.OldKeyLosesMutex | internal/pkg/imagemanager/manager.go:292-305 | one last seen longer ago is gone, or has a new mutex if it is the one looked up |
| ImportRuns.ImportsExclude | internal/pkg/imagemanager/manager.go:178-212 | in every run in which time never takes a key in use past `staleAfter` and lookups in the lock are answered, a key has one mutex and at most one thread in its section, and an image is created at most once |
| ImportRuns.StepKeepsInv | internal/pkg/imagemanager/manager.go:285-316 | every action keeps that |
| ImportRuns.SplitExactlyWhenStale | internal/pkg/imagemanager/manager.go:292-305 | a newcomer gets another mutex than the one in use for its key exactly when the key was last seen more than `staleAfter` ago |
| ImportRuns.StaleKeyImportsTwice | internal/pkg/imagemanager/manager.go:292-305 | a run in which an import outlasts the limit and the image is created twice |
| ImportRuns.UnansweredLookImportsTwice | internal/pkg/imagemanager/manager.go:182-200 | a lookup in the lock that fails leads to a second import |
| ImportRuns.UnansweredLookIsReached | internal/pkg/imagemanager/manager.go:182-200 | an allowed run from the start leads to that lookup |
| ImportHarms.HarmlessImportsOnce | internal/pkg/imagemanager/manager.go:178-212 | in every run without a harm an image is imported at most once, by one thread at a time, whatever keys go stale and whichever lookups fail otherwise; a harm is a newcomer that gets another mutex than a thread that may still import the same missing image, or a failed lookup of an image that is there |
| ImportHarms.HarmImportsTwice | internal/pkg/imagemanager/manager.go:182-212 | from any sound state either harm has a continuation, with no further harm, that imports an image twice |
| ImportHarms.TwiceExactlyAfterHarm | internal/pkg/imagemanager/manager.go:182-305 | in every state that harmless runs reach, an action lets an image be imported twice without further harm exactly when it is a harm |
| ImportHarms.AllowedIsHarmless | internal/pkg/imagemanager/manager.go:292-305 | fresh keys and answered lookups rule out both harms |
| ImageManager.Manager.Resolve | internal/pkg/imagemanager/manager.go:101-230 | without a recorded image and without concurrency it succeeds exactly when the forecast does and the named rest works out, with the forecast action and source, the creation asked for in full, and the checksum the checks made of that data; at most one image is created, and none when somebody else's import is found in the lock; what is refused before the lock fails with its own class |
| ImageManager.Manager.Reuse | internal/pkg/imagemanager/manager.go:111-140 | an image found is a success exactly when it is ready; else it fails as the look did, for good when it has failed, or to be asked again |
| ImageManager.PredictIgnoresDatastore | internal/pkg/imagemanager/manager.go:233-275 | the converse fails: the forecast of an import needs no datastore, the import does |
| ImageManager.ChecksumBelongsToData | internal/pkg/imagemanager/manager.go:406-494 | what is returned matches the data exactly when none is recorded and either checksums are required or the published one that is configured cannot be had |
| ImageLaws.ReadyExactly | internal/pkg/imagemanager/manager.go:366-373 | an image is ready exactly in the states "READY", "USED" and "USED_PERS", in any case |
| ImageLaws.EvaluatedExactly | internal/pkg/imagemanager/manager.go:353-374 | failed for good exactly in "ERROR" and "DELETE", to be asked again in any other, and what is reported of it |
| ImageLaws.SourceReported | internal/pkg/imagemanager/manager.go:361-361 | the recorded source, else the one OpenNebula knows |
| ImageLaws.StagedExactly | internal/pkg/imagemanager/manager.go:641-644 | only sources that end in ".zst", in any case and trimmed, are unpacked here |
| ImageLaws.ForecastExactly | internal/pkg/imagemanager/manager.go:233-275 | which look-up decides, whose word on importing counts, and what is forecast or refused |
| ImageLaws.ChecksumExactly | internal/pkg/imagemanager/manager.go:406-494 | a recorded checksum is believed, a required one compared with the hash, any other taken as published |
| ImageLaws.PreparedExactly | internal/pkg/imagemanager/manager.go:318-404 | an import gets to its creation exactly when the file comes, if staged, its checksum is found right and it unpacks |
| Placement.SelectPlacement | internal/pkg/provider/placement.go:17-77 | fails exactly when no host passes the filters; the chosen host passes them all and none that does comes before it in free share, load, id and name (`SelectedIsBest`, `FullerIsNotSelected`) |
| Placement.SelectedIsBest | internal/pkg/provider/placement.go:53-77 | no eligible host scores more than the chosen one, nor as much with a smaller id |
| Placement.FullerIsNotSelected | internal/pkg/provider/placement.go:53-77 | a host is not chosen while another is eligible that is like it but has more free |
| Placement.SelectionIgnoresOrder | internal/pkg/provider/placement.go:53-65 | the choice does not depend on the order of the inventory when id and name tell hosts apart |
| Placement.SelectedHostFits | internal/pkg/provider/placement.go:124-154 | the chosen host carries every required tag, no excluded one, and the tag of the storage profile if any host does |
| Placement.BeforeIsTotal | internal/pkg/provider/placement.go:53-63 | the comparison is total on candidates that differ in score, id or name |
| Placement.BeforeIsTransitive | internal/pkg/provider/placement.go:53-63 | and transitive |
| Placement.BonusesAreEqual | internal/pkg/provider/placement.go:79-110 | for a resolved hypervisor all candidates get the same bonuses, so headroom and VM count alone decide |
| Placement.ManyVmsLose | internal/pkg/provider/placement.go:79-83 | a host with more than (cpu weight + memory weight) / VM weight more VMs is never ranked above another |
| Placement.HeadroomRatio | internal/pkg/opennebula/types.go:137-162 | not negative, and at most 1 when nothing negative is in use; that it is the free share is `HeadroomIsFreeShare` |
| Placement.ScoreHost | internal/pkg/provider/placement.go:79-110 | the score of the ranking: the weighted free shares less the weighted VM count, and the bonuses that apply (`ScoreMeans`) |
| Placement.HeadroomIsFreeShare | internal/pkg/opennebula/types.go:137-162 | all free is 1, nothing left is 0, and between them the free share of the total |
| Placement.HeadroomFalls | internal/pkg/opennebula/types.go:137-162 | it falls strictly with what is in use |
| Placement.FreerCpuScoresMore | internal/pkg/provider/placement.go:81-81 | of two hosts alike but for cpu in use the freer never scores less, and more with a positive cpu weight |
| Placement.FreerMemoryScoresMore | internal/pkg/provider/placement.go:82-82 | the same for memory with the memory weight |
| Placement.VmsCost | internal/pkg/provider/placement.go:83-83 | one more running VM costs its weight |
| Placement.ScoreMeans | internal/pkg/provider/placement.go:79-110 | the score in full: weighted free shares, weighted VM count, and each bonus with what it is for |
| Placement.CandidatesAreEligible | internal/pkg/provider/placement.go:25-47 | the candidates are exactly the hosts that pass the filters, with their scores |
| Placement.EligibleExactly | internal/pkg/provider/placement.go:25-47 | which hosts pass, filter by filter |
| Placement.SortCandidates | internal/pkg/provider/placement.go:53-63 | sorted, and a permutation |
| Ipv4.ParseToString | internal/pkg/provider/provision.go:510-524 | an address reads back from its dotted form |
| Ipv4.ParseExactly | internal/pkg/provider/provision.go:510-524 | a string reads as an address exactly when it is its dotted form |
| Ipv4.MaskedBits | internal/pkg/provider/provision.go:521-521 | under the mask an octet keeps the bits the mask has, and no others |
| Validation.Validator.Validate | internal/pkg/provider/validation.go:21-130 | the first problem in the order of the checks, or the data with all defaults and derived values |
| Validation.Validator.NormalizeNetworks | internal/pkg/provider/validation.go:132-199 | succeeds exactly for networks that are all acceptable and agree on a mode; fills profiles and mode |
| Validation.Validator.NormalizeNetwork | internal/pkg/provider/validation.go:143-179 | one network |
| Validation.Validator.NormalizeStaticNetwork | internal/pkg/provider/validation.go:223-264 | succeeds exactly when all addresses read; derives the missing networks |
| Validation.Validator.ValidateAdditionalDisks | internal/pkg/provider/validation.go:311-340 | succeeds exactly within the limits; fills formats |
| Validation.Validator.ValidateDevices | internal/pkg/provider/validation.go:93-111 | firmware, graphics and GPU |
| Validation.Validator.ValidatePolicies | internal/pkg/provider/validation.go:201-221 | image policy, placement, disks and delete mode |
| ValidationChecks.FirstProblemIsFirst | internal/pkg/provider/validation.go:21-130 | a request is refused exactly when something is wrong with what it or the configuration says, each problem spelled out, and for the first in the order of the checks |
| ValidationChecks.StrippedExactly | internal/pkg/provider/validation.go:456-468 | fields of v1alpha2 are used exactly when dropping them changes the request |
| ValidationChecks.FilledNetworkMeans | internal/pkg/provider/validation.go:143-160 | a network takes from its profile just what it leaves out |
| ValidationChecks.ParseIPv4Exactly | internal/pkg/provider/validation.go:233-245 | an address is read from its dotted form, with white space around, or from an IPv6 spelling |
| ValidationChecks.GapsAreFilled | internal/pkg/provider/validation.go:21-130 | every gap is filled with its default, and nothing that was given changes |
| ValidationChecks.ListsAreFilled | internal/pkg/provider/validation.go:223-340 | so for networks, disks and addresses, one by one |
| ValidationChecks.AcceptedNetworks | internal/pkg/provider/validation.go:132-199 | accepted networks are named, allowed and of the final mode or of none |
| ValidationChecks.AcceptedIsCompliant | internal/pkg/provider/validation.go:21-130 | accepted data keeps to the configuration in all it says, defaults included |
| ValidationLaws.ValidationIsANormalForm | internal/pkg/provider/validation.go:21-130 | validated data is a fixed point, and a second validation succeeds exactly for v1alpha2 data whose manual mode did not slip past the profile check |
| ValidationLaws.ModesAgreeWithFinal | internal/pkg/provider/validation.go:187-196 | all set network modes equal the final mode, which is the requested one if there was one |
| ValidationLaws.DerivedNetwork | internal/pkg/provider/provision.go:510-524 | a derived network is address AND mask and reads back as that |
| ValidationLaws.SomeSlipPast | internal/pkg/provider/validation.go:157-163 | data whose manual mode comes in through its profile passes the first time and fails the second |
| ValidationLaws.NetworksAgain | internal/pkg/provider/validation.go:161-163 | which networks fail the second time |
| Plan.RunPreflight | internal/pkg/provider/preflight.go:92-128 | the list of checks that fail, in order, and the status |
| Plan.ErrorsAreFound | internal/pkg/provider/preflight.go:92-128 | an error is listed exactly when its check fails |
| PlanChecks.PreflightExactly | internal/pkg/provider/preflight.go:92-128 | exactly the errors there are, each spelled out, once and in order; the warning, and the status they come to |
| PlanChecks.BootstrapProfileExactly | internal/pkg/provider/preflight.go:176-187 | the configured profile, else lab where machines are emulated and production elsewhere |
| PlanChecks.HypervisorExactly | internal/pkg/provider/provision.go:337-348 | the configured hypervisor, or the one found when that is left open; no other is taken |
| PlanChecks.ImportIsDecided | internal/pkg/provider/provision.go:449-458 | behind validation the request itself says whether a missing image may be imported |
| PlanChecks.ForecastFillsGaps | internal/pkg/provider/explain.go:63-71 | version, schematic and architecture that are left out |
| PlanChecks.ForecastExactly | internal/pkg/provider/explain.go:106-123 | the forecast is that of the named image, and one that cannot be had is no failure |
| PlanChecks.PlanExactly | internal/pkg/provider/preflight.go:18-90 | there is at most one plan for a request, and it is made exactly when there is one: all its parts are looked up for the filled request and nothing is found against it |
| PlanLaws.ExplainAgreesWithPlan | internal/pkg/provider/explain.go:58-137 | with a datastore and a forecast that does not fail, the plan is made exactly when the dry run succeeds with a passing preflight, and then selects and reports the same; it is refused exactly when the dry run shows one that does not pass, with the same selections, errors and warnings and the status `Fail` |
| PlanLaws.RefusedForWarnings | internal/pkg/provider/preflight.go:58-75 | the preflight of a refused plan differs from that of the dry run exactly when warnings alone refuse it |
| PlanLaws.ExplainNeedsDatastore | internal/pkg/provider/explain.go:88-91 | without a datastore the dry run fails, and a plan that is made has none |
| PlanLaws.PlanWithoutDatastore | internal/pkg/provider/preflight.go:39-46 | a request without a datastore whose plan is made and whose dry run fails |
| PlanLaws.ChecksThatRemain | internal/pkg/provider/preflight.go:92-128 | behind validation and placement two of the six checks cannot fail |
| PlanLaws.HostZeroIsRefused | internal/pkg/provider/preflight.go:99-101 | a plan never has host 0 |
| PlanLaws.SupportedProfiles | internal/pkg/opennebula/goca.go:196-228 | exactly which datastores support which storage profile; none supports ceph-rbd |
| LabEngine.PhasesAreAChain | hack/labctl/src/labctl/app.py:26-38 | the eleven phases have different names and each depends on the one before |
| LabEngine.StateStore.FirstIncomplete | hack/labctl/src/labctl/state.py:95-99 | the first phase without a record of completed or skipped, or none |
| LabEngine.StateStore.UpdatePhase | hack/labctl/src/labctl/state.py:63-82 | sets status and hash of one phase and keeps the rest |
| LabEngine.LabApp.Execute | hack/labctl/src/labctl/phases/base.py:39-81 | a disabled phase is skipped, one completed under this configuration is left unless forced, any other runs and is recorded as completed if its body returns, failed if it raises, still running if it dies |
| LabEngine.LabApp.RunPhase | hack/labctl/src/labctl/app.py:94-99 | walks every earlier phase in order, ends by position, stops at an exception |
| LabEngine.LabApp.Run | hack/labctl/src/labctl/app.py:94-99 | an unknown name changes nothing |
| LabEngine.LabApp.RunAll | hack/labctl/src/labctl/app.py:101-103 | walks from every phase |
| LabEngine.LabApp.Resume | hack/labctl/src/labctl/app.py:105-113 | walks from the first incomplete phase, or changes nothing |
| LabLaws.ResumeIsRunAll | hack/labctl/src/labctl/app.py:105-113 | without force, resuming anywhere leaves the records, the bodies run and the failure of `run_all` |
| LabLaws.ResumeOfNothing | hack/labctl/src/labctl/app.py:106-108 | when nothing is incomplete, `run_all` would do nothing exactly if all records are of this configuration |
| LabLaws.StaleRecordsAreNotResumed | hack/labctl/src/labctl/app.py:101-108 | with the eleven phases all completed under another configuration `resume` does nothing and `run_all` runs all eleven |
| LabLaws.FullRunIsOneWalk | hack/labctl/src/labctl/app.py:94-103 | without force a full run is the walk to the last phase |
| LabLaws.RunAllRunsStaleOnce | hack/labctl/src/labctl/phases/base.py:39-81 | each enabled stale phase runs once, in order, and a second run does nothing |
| LabLaws.WalkRuns | hack/labctl/src/labctl/phases/base.py:50-81 | what a walk runs, up to the first phase that raises, which is recorded as failed, or dies, which stays recorded as running |
| LabLaws.NothingToDoExactly | hack/labctl/src/labctl/phases/base.py:39-60 | unforced, a phase is left alone exactly when it is completed under this configuration, or disabled and already recorded so |
| LabLaws.StaleExactly | hack/labctl/src/labctl/phases/base.py:39-48 | an enabled phase runs exactly when forced or not completed under this configuration |
| LabLaws.FailureIsResumed | hack/labctl/src/labctl/phases/base.py:67-75 | after a failure the phase that failed is the first incomplete one and the next to run |
| LabLaws.ForcedRunAllCounts | hack/labctl/src/labctl/app.py:94-103 | forced, the enabled phase at position j of n runs n - j times |
| LabLaws.ForcedRunAllTotal | hack/labctl/src/labctl/app.py:94-103 | forced, the bodies run are the sum of n - j over the enabled positions j of n; with all phases enabled n (n + 1) / 2 |
| LabLaws.HistoriesKeepOrder | hack/labctl/src/labctl/phases/base.py:39-81 | under one configuration and without force, over any history of commands and failures, a completed phase has only completed or skipped phases before it |

## Left out

- Reservation labels and the time of creation, phases, log lines, metrics and every text made for people: no decision reads them.
- The look-up of cluster and role from labels and machine sets: a parameter of `Allocator.ResolveVMName`; only the reading of set names is modelled.
- The steps that create the schematic and wait for the VM: they change neither the store nor a VM.
- Lifecycle.Step: the delete mode is left open there, so every run in hard mode and in normal mode is among its runs; `Deprovision` has the mode.
- VtProto.MessageObject.UnmarshalVT: after an error the content of the message is left open; a length that runs past the end always gives `UnexpectedEof`, where the original gives `InvalidLength` if the index wraps at 2^63.
- WireRoundTrip.RoundTrip: for encodings below 2^63 bytes, the largest a Go slice can have.
- `CloneVT`: a message here is a value, so a copy that shares nothing is the value itself.
- `protohelpers.EncodeVarint`, `SizeOfVarint` and `Skip` are not part of this repository and follow the Protocol Buffers Encoding guide.
- `ToLower`, `ToUpper` and case folding outside the characters that have an ASCII counterpart.
- `Placement`: scores are real numbers, so rounding and its ties are not modelled; that the sort is stable shows only for hosts with equal id and name.
- `Validation`: messages, GPU details and tags; the placement policies are one predicate of the configuration; after a problem the data may be partly filled in.
- `ResolveResources`: a function of the inventory in `Plan`; its limits are flat comparisons.
- Plan.RunPreflight: the choice of a host is a function of the inventory in `Plan`, so that plan and dry run see the same one; `Placement.SelectPlacement` says what it is.
- ImageManager.Manager.Resolve: downloads, unpacking, hashing and templates are functions of a world; the lock itself is in `ImageLock` and `ImportRuns`.
- LabEngine.LabApp.Execute: times and details of records, and the file they are saved to; a body is its outcome.
- Deprovision.ClearProvisionedState: the datastore id, the network ids, the resolved host and other fields that the original keeps are not part of this model.
- Configuration loading, command lines, rendering of templates, redaction, the SQLite store, Helm and Ansible.
