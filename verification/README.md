# Kubemark provider: verified model

A Dafny model of the Cluster API provider for Kubemark, with proofs. `dafny verify dfyconfig.toml` checks all of it.

The provider turns each KubemarkMachine into a Secret and a hollow-node Pod on a target cluster, publishes a
provider ID and a Ready bit, and cleans up behind a finalizer. The reconcile that does so may meet a failing call
or die between any two calls, and many run at once. The model is a transition system with one worker per machine
and one step per API call (`Protocol`); its steps are also executed by a method in the form of the controller's
`Reconcile` (`Reconciler`), proved to leave exactly the server state that the transition system gives.

| module | contents |
|---|---|
| `Protocol` | server state, workers, one step per call, environment events, runs |
| `Safety` | the global invariant; no orphans |
| `Isolation` | non-interference; Pods never without Secrets |
| `Publication` | when a Ready bit can be trusted |
| `History` | write-once contents; what a Pod tells about the past of a run |
| `Convergence`, `EndState` | bounded convergence under failures; one final state, of provisioning and of clean-up |
| `Drive`, `Reconciler` | one whole reconcile and its answer; its imperative form |
| `Outcome` | answer, calls and effect of one reconcile, said without its steps |
| `Losses` | what a reconcile can lose and not make up for; what its success means |
| `SharedTargets` | why targets have to be distinct |
| `ExtendedResources`, `HollowPod` | overlay, flag printer and parser; arguments, mounts and Pod |
| `Template` | the template controller and its capacity |
| `KubemarkCluster` | resolving the target of a machine |
| `DeepCopy` | the generated deep copies, on the heap |
| `Boilerplate` | the licence-header checker |
| `Stamp`, `Preambles`, `Header` | the stamped year; what is taken off in front; what the verdict says of a text |
| `Text`, `Common` | string operations, Option and Result |

## Assumptions

They appear as guards of the environment events (`Protocol.EnvEnabled`) or as hypotheses of the theorems.

- At most one worker per machine, and the first read is fresh.
- Only this controller removes its finalizer, writes provider IDs and status, or touches these Pods and Secrets.
- A secret reference is not edited, and what it resolves to does not change; a lookup may fail at any time.
- A machine with the same name does not appear between a reconcile's read and its first patch.
- An object goes away when deletion is requested and its last finalizer is off; a delete call takes effect at once.
- An owner Machine outlives the KubemarkMachine that it owns. Owner Machines are indexed by that key, so each owns one.
- The patch helper compares the working copy with the snapshot taken when it was made, sends metadata and spec in one
  merge patch and status in another, and goes on to the second if the first fails. A merge patch replaces the whole
  finalizer list.
- A server is `strict` if it refuses new finalizers on an object under deletion, as the Kubernetes API does. Safety is
  proved for both kinds.
- A failing write may have been carried out with its reply lost.

## Where the code falls short of its intent

- The two provider IDs are written by patches of their own before Ready, and a failure of either is only logged. Ready is
  wrong exactly if it is turned on by a reconcile that has lost one of them, be it the owner Machine's or the machine's
  own (`Publication.ReadyIsPublishedLast`; witnesses in `Losses.LostPatchIsNeverRepaired`), and then it stays wrong for as
  long as the machine exists (`Publication.MistakesAreNeverRepaired`). Losing a patch does no harm if the same reconcile
  then dies or loses its status patch too.
- A lost status patch, or a lost closing patch of a clean-up, is only logged, too: the reconcile reports success and does
  not ask for the retry that would make the machine Ready or take its finalizer off (`Losses.LostStatusIsNotRetried`,
  `Losses.LostReleaseIsNotRetried`). With the case of the next bullet these are the only ways in which success is
  reported too early (`Losses.SuccessMeansFinished`).
- The closing patch is compared with a snapshot from before the finalizer was added, so a reconcile that both adds
  and removes the finalizer sends no metadata patch and leaves it on (`Losses.ReleasesExactlyWhenClaimedBefore`).
- Machines of equal name in different namespaces share a target through one external cluster secret, and deleting
  one destroys the other's Pod (`SharedTargets.SharedTargetIsSwept`) or leaves it without its Secret
  (`SharedTargets.SharedTargetLosesSecret`).
- A template whose YEAR stands behind a digit, or that names a legal year before it, may refuse correctly stamped headers
  (`Stamp.StampIsReplacedExactly`, `Stamp.DigitBeforeStamp`).
- A list deep-copied into itself loses its items (`DeepCopy.KubemarkMachineList.DeepCopyInto`).
- A mount named `kubeconfig`, or two mounts of one name, make volume names ambiguous (`HollowPod.MountsResolveExactly`).
- The comment at api/v1alpha4/kubemarkmachine_types.go:46 gives the provider ID four slashes; the code writes two, and
  the model follows the code.

## Model

| member | source | states |
|---|---|---|
| `Safety.NoOrphans` | controllers/kubemarkmachine_controller.go:154-210 | in every reachable state, under any interleaving, failed call, lost reply or crash, a Pod or Secret implies that the machine it was made for still exists, carries the finalizer and lives at that target |
| `Safety.StepKeepsInv` | controllers/kubemarkmachine_controller.go:119-448 | every API call, crash and environment event keeps the global invariant that ties each worker position to the server state |
| `Safety.RewriteKeepsWorker` | controllers/kubemarkmachine_controller.go:154-171 | edits by others that keep the finalizer, status and provider ID leave a running reconcile able to rely on its snapshot |
| `Isolation.DependencyOrder` | controllers/kubemarkmachine_controller.go:183-207 | while targets are distinct, a Pod always has its Secret beside it, through creation and deletion; a Ready machine not under deletion has both |
| `Isolation.NonInterference` | controllers/kubemarkmachine_controller.go:173-210 | with distinct targets no step of one worker changes another machine, its owner Machine, its worker, Pod or Secret |
| `Isolation.OthersNeverInterfere` | controllers/kubemarkmachine_controller.go:173-210 | the same over any stretch of a run made of other machines' steps and crashes |
| `Isolation.LocalMachinesAreDistinct` | controllers/kubemarkcluster.go:46-49 | without secret references the targets of different machines are always distinct |
| `SharedTargets.SharedTargetIsSwept` | controllers/kubemarkmachine_controller.go:183-208 | distinctness is necessary: one fault-free clean-up removes Pod and Secret of every other machine at the same target, which stays Ready |
| `SharedTargets.SharedTargetLosesSecret` | controllers/kubemarkmachine_controller.go:183-208 | distinctness is necessary for the order, too: from every state with one machine to provision and another to clean up at one target, a run without failures leaves a Pod there without its Secret |
| `SharedTargets.CollidingIsReachable` | controllers/kubemarkmachine_controller.go:119-210 | from an empty server a concrete run leads to two machines at one target, one to be provisioned and one claimed and to be cleaned up, where the losses and collisions shown here begin |
| `SharedTargets.ReadyCollidingIsReachable` | controllers/kubemarkmachine_controller.go:119-210 | and another to such a pair of which one is Ready |
| `KubemarkCluster.TargetsCollideExactly` | controllers/kubemarkcluster.go:46-82 | machines with any two references share a target exactly when their names agree and both are led to one cluster and namespace; through one shared reference whenever names agree; without references only for equal keys |
| `KubemarkCluster.TrimSpaceDropsBlankEnds` | controllers/kubemarkcluster.go:62-67 | the namespace read from the secret loses blank ends and nothing else |
| `KubemarkCluster.SpacesAreWhite` | controllers/kubemarkcluster.go:62-67 | the characters that count as blank, by code point |
| `KubemarkCluster.ResolveErrorsExactly` | controllers/kubemarkcluster.go:51-79 | why a reference leads nowhere, each reason exactly when it is the first |
| `Publication.ReadyIsPublishedLast` | controllers/kubemarkmachine_controller.go:165-227 | over every run: in all states Ready implies that the machine and its owner Machine carry the ID made of the scheme kubemark:// and the machine's name, if and only if Ready was never turned on by a reconcile that had lost one of them |
| `Publication.ProviderIDsAreNames` | controllers/kubemarkmachine_controller.go:442-444 | two such Ready machines carry the same provider ID if and only if their names are equal, whatever their namespaces |
| `Publication.ReadyIsTrustedExactly` | controllers/kubemarkmachine_controller.go:165-227 | the same over any stretch of a run that starts between reconciles |
| `Publication.MistakesAreNeverRepaired` | controllers/kubemarkmachine_controller.go:212-227 | a machine that is Ready with a provider ID missing stays so for the rest of its life, whatever reconciles, faults and edits follow; edits by others never write provider IDs, as assumed above |
| `Losses.LostPatchIsNeverRepaired` | controllers/kubemarkmachine_controller.go:212-227 | from every state where provisioning can succeed, losing just the owner patch, or just the machine patch, ends Ready with just that provider ID unpublished, and no later reconcile changes anything |
| `Losses.LostStatusIsNotRetried` | controllers/kubemarkmachine_controller.go:165-171 | from every state where provisioning can succeed, losing just the status patch leaves both provider IDs published and Ready missing, and the reconcile reports success |
| `Losses.LostReleaseIsNotRetried` | controllers/kubemarkmachine_controller.go:165-171 | in every clean-up the closing patch can be lost so that the finalizer stays while the reconcile reports success |
| `Losses.SuccessMeansFinished` | controllers/kubemarkmachine_controller.go:119-448 | a reconcile that reports success leaves a machine with an owner released if it is under deletion, and otherwise Ready or waiting for infrastructure or bootstrap data, if and only if it loses neither the write that turns Ready on nor the one that takes the finalizer off, and the machine was not under deletion with the finalizer yet to be added |
| `Drive.ReadyIsAFixpoint` | controllers/kubemarkmachine_controller.go:159-215 | reconciling a Ready machine that is not under deletion leaves the whole server unchanged, however the calls end |
| `Losses.ReleasesExactlyWhenClaimedBefore` | controllers/kubemarkmachine_controller.go:154-209 | where the server takes finalizers during deletion, a fault-free clean-up gets the finalizer off exactly when it was on before the reconcile began |
| `Drive.GoIsARun` | controllers/kubemarkmachine_controller.go:119-448 | one whole reconcile under any script of replies is a run of the protocol, so everything proved about runs holds of it |
| `Outcome.AnswersExactly` | controllers/kubemarkmachine_controller.go:119-448 | for every script of replies that it survives, a reconcile returns an error if and only if a call before the deferred patches fails, or the machine and its owner exist and the cluster is missing, the server refuses the finalizer, the target does not resolve, or a Pod is due that the version does not allow; a missing machine or owner, a Ready machine and both waiting gates return success |
| `Outcome.LeavesExactly` | controllers/kubemarkmachine_controller.go:119-448 | if no call fails, the server is left just as stated for each case: untouched, with the finalizer added, cleaned up, with a Secret and no Pod where the version is refused, or with Secret, hollow-node Pod, provider IDs and Ready |
| `Outcome.CallsExactly` | controllers/kubemarkmachine_controller.go:119-448 | the calls made are the planned ones in order up to the first that fails, then the deferred patches that are due, owner Machine first |
| `Reconciler.KubemarkMachineReconciler.Reconcile` | controllers/kubemarkmachine_controller.go:119-448 | the method with its early returns and deferred patches leaves exactly the server state, and returns exactly the answer (success, error, or none if it dies), that the protocol assigns to the same replies |
| `Reconciler.KubemarkMachineReconciler.Provision` | controllers/kubemarkmachine_controller.go:173-251 | target lookup, deletion branch, Ready short-cut and gates hand over to the deferred patches in the protocol's state |
| `Reconciler.KubemarkMachineReconciler.Teardown` | controllers/kubemarkmachine_controller.go:183-209 | Pod before Secret before finalizer, each failure leaving the rest undone |
| `Reconciler.KubemarkMachineReconciler.CreateObjects` | controllers/kubemarkmachine_controller.go:312-362 | Secret creation tolerating an existing one, then the version gate with its three refusals; what the gate admits is stated by HollowPod.GateAdmits |
| `Reconciler.KubemarkMachineReconciler.CreatePodObject` | controllers/kubemarkmachine_controller.go:364-447 | Pod creation tolerating an existing one, then provider IDs and Ready on the local copies |
| `Reconciler.KubemarkMachineReconciler.RunDeferred` | controllers/kubemarkmachine_controller.go:165-227 | owner Machine patch before KubemarkMachine patch, metadata and spec before status; errors ignored and not returned |
| `History.PodsAreWrittenOnce` | controllers/kubemarkmachine_controller.go:436-441 | the contents of a Pod never change while it exists, whatever is edited meanwhile |
| `History.SecretsAreWrittenOnce` | controllers/kubemarkmachine_controller.go:322-327 | the contents of a Secret never change while it exists |
| `History.SecretsWereCreated` | controllers/kubemarkmachine_controller.go:312-327 | every Secret of every reachable state holds the bytes that one of its maker's calls sent to its target |
| `History.WorkersReadThePast` | controllers/kubemarkmachine_controller.go:122-154 | every object a running reconcile holds is what the server once showed |
| `History.PodFidelity` | controllers/kubemarkmachine_controller.go:229-441 | every Pod ever on the server was built from a machine not under deletion and an owner Machine as they once stood there, with bootstrap data, ready infrastructure, and a version that is present, readable, and supported unless there are no options |
| `History.EveryPodIsAHollowNode` | controllers/kubemarkmachine_controller.go:364-434 | field by field, every Pod of every reachable state: image, a colon and the version; the name argument of its own target; the kubeconfig mount fed by the Secret of its own target; every extra mount and its volume; command, privilege, label, requests, toleration |
| `History.PodFlagTellsTheOptions` | controllers/kubemarkmachine_controller.go:335-376 | on every such Pod the flag is present exactly when the version passed the gate, and parses back to the overlay of the options of the machine it was built from exactly if these are free of separators |
| `Convergence.CallsAreBounded` | controllers/kubemarkmachine_controller.go:119-448 | no reconcile makes more than twelve calls, by a measure that every call decreases |
| `Convergence.EnoughCallsSuffice` | controllers/kubemarkmachine_controller.go:119-448 | twelve calls for each failure and twelve more include a reconcile that met none |
| `Convergence.BecomesReady` | controllers/kubemarkmachine_controller.go:119-448 | interleaved with anything other machines do, a provisionable machine is Ready once more reconciles ended than calls failed or workers crashed, and stays Ready for as long as it exists |
| `Convergence.BecomesClean` | controllers/kubemarkmachine_controller.go:183-210 | with the same bound a machine under deletion has at some step lost its finalizer, with no Pod or Secret made for it left; for good, until one of that name is made anew, if the server refuses new finalizers during deletion |
| `EndState.EndStateIsDetermined` | controllers/kubemarkmachine_controller.go:322-445 | once Ready, the machine, owner Machine and Pod are those that the start of the window determines, up to provider IDs and the listing order in the flag, a Secret that was there is kept and a new one was made for the machine; and provider IDs are determined if and only if Ready was never turned on after losing one |
| `EndState.EndStatesAgree` | controllers/kubemarkmachine_controller.go:119-448 | two runs from one state, with any failures on the way, end alike up to provider IDs, that order and the bytes of a new Secret; where one of them lost no provider ID before Ready, they agree on provider IDs exactly if the other did not either |
| `EndState.CleanEndIsDetermined` | controllers/kubemarkmachine_controller.go:183-210 | whenever in a window of clean-up the finalizer is off, no Pod or Secret made for the machine is left, the owner Machine is untouched, and the machine is gone, or, if others hold it, as it was but for the finalizer |
| `EndState.CleanUpsEndAlike` | controllers/kubemarkmachine_controller.go:183-210 | every clean-up in which more reconciles end than calls fail or workers crash passes through that one end, and stops there on servers that refuse new finalizers during deletion |
| `ExtendedResources.GetKubemarkExtendedResources` | controllers/util.go:35-48 | keys cpu, memory and those of the options; options win, 1 and 4G elsewhere; for every iteration order |
| `ExtendedResources.OverlayIdempotent` | controllers/util.go:35-48 | the overlay fed its own output gives it back |
| `ExtendedResources.GetKubemarkExtendedResourcesFlag` | controllers/kubemarkmachine_controller.go:499-511 | the printed flag for any iteration order; for clean non-empty lists it parses back to the list |
| `ExtendedResources.FlagIsWritten` | controllers/kubemarkmachine_controller.go:499-511 | the flag is the prefix and the first name=quantity, and each further entry adds a comma and name=quantity |
| `ExtendedResources.MapFromExtendedResourceFlags` | controllers/kubemarkmachine_controller_test.go:90-112 | the parser loop, and that it succeeds exactly on the empty flag and on well-formed ones |
| `ExtendedResources.ParsesExactlyWellFormed` | controllers/kubemarkmachine_controller_test.go:90-112 | parsing succeeds if and only if the flag is empty, or the prefix is there and every comma-separated piece has exactly one equals sign |
| `ExtendedResources.ParserExactly` | controllers/kubemarkmachine_controller_test.go:90-112 | nothing for the empty flag, an error without the prefix, else the error of the first piece that is no pair, and otherwise the map in which the last pair of each key decides |
| `ExtendedResources.RoundTripsExactlyWhenClean` | controllers/kubemarkmachine_controller.go:499-511 | for every iteration order, parse after print returns the list if and only if it is non-empty and free of separators |
| `ExtendedResources.EmptyMapIsRejected` | controllers/kubemarkmachine_controller_test.go:95-108 | an empty, non-nil list prints a bare prefix that the parser refuses |
| `ExtendedResources.OverlayRoundTripsExactlyWhenClean` | controllers/util.go:35-48 | over the defaults an option list round-trips if and only if it is free of separators; nil always does |
| `ExtendedResources.PrinterIsInjective` | controllers/kubemarkmachine_controller.go:499-511 | clean non-empty lists that print alike under some orders are equal |
| `HollowPod.ArgsCarryTheOverlay` | controllers/kubemarkmachine_controller.go:335-362 | the arguments contain the flag exactly for supported versions, and it parses back to the overlay exactly if the options are free of separators |
| `HollowPod.AddExtraMounts` | controllers/kubemarkmachine_controller.go:413-434 | the nested loops append every mount to every container and every volume to the Pod, in order |
| `HollowPod.MakePod` | controllers/kubemarkmachine_controller.go:364-434 | the Pod literal and the loops give the Pod that the protocol creates; what that is stands in HollowPod.BuildsHollowNodes |
| `HollowPod.BuildsHollowNodes` | controllers/kubemarkmachine_controller.go:364-434 | that Pod is a hollow node in every field |
| `HollowPod.GateAdmits` | controllers/kubemarkmachine_controller.go:329-362 | the gate lets pass exactly versions that are present, readable, and supported or without options to support |
| `HollowPod.MountsResolveExactly` | controllers/kubemarkmachine_controller.go:380-434 | each container mount finds its own volume and no other if and only if mount names are distinct and none is kubeconfig |
| `Template.KubemarkMachineTemplateReconciler.Reconcile` | controllers/kubemarkmachinetemplate_controller.go:56-94 | a patch is sent exactly when the capacity differs from the overlay of non-nil options; new state and error in all reply cases; options never change, and the capacity only to that overlay |
| `Template.KubemarkMachineTemplateReconciler.CopyCapacity` | controllers/kubemarkmachinetemplate_controller.go:73-76 | the copy loop gives the same list in every iteration order |
| `Template.CapacityIsTheLastApplied` | controllers/kubemarkmachinetemplate_controller.go:71-91 | over any edits and reconciles the capacity is the overlay of the last options successfully reconciled; nil leaves it |
| `Template.OneStepFixpoint` | controllers/kubemarkmachinetemplate_controller.go:78-91 | after a success a second reconcile of the same options sends and changes nothing |
| `Template.CapacityAgreesWithTheFlag` | controllers/kubemarkmachinetemplate_controller.go:71-91 | the capacity equals what the flag of a machine with the same options says, for all orders, exactly when the overlay is free of separators |
| `DeepCopy.DeepCopyResources` | api/v1alpha4/zz_generated.deepcopy.go:279-288 | a map copy is equal, fresh, and nil for nil |
| `DeepCopy.DeepCopyMounts` | api/v1alpha4/zz_generated.deepcopy.go:118-124 | a mount slice copy is equal, with fresh array and cells, no cell shared between slots |
| `DeepCopy.DeepCopySpec` | api/v1alpha4/zz_generated.deepcopy.go:111-131 | a spec copy is equal with nil and empty kept apart, everything it points to fresh |
| `DeepCopy.DeepCopyMachine` | api/v1alpha4/zz_generated.deepcopy.go:52-58 | the same for a whole machine |
| `DeepCopy.DeepCopyItems` | api/v1alpha4/zz_generated.deepcopy.go:83-89 | the item loop into given slots: every copy equal, fresh, and disjoint from the other copies |
| `DeepCopy.KubemarkMachineList.DeepCopyInto` | api/v1alpha4/zz_generated.deepcopy.go:79-90 | the list written through the out pointer looks like the original, for any length, nil and empty kept apart; all it reaches is new and no two items share anything; a list copied into itself is left with zero values for items |
| `DeepCopy.KubemarkMachineList.DeepCopy` | api/v1alpha4/zz_generated.deepcopy.go:93-100 | a new list with the same promise: what it reaches is fresh and disjoint from what the original reaches |
| `DeepCopy.ViewsTellAll` | api/v1alpha4/zz_generated.deepcopy.go:31-58 | machines look alike exactly if they are deeply equal in every field |
| `DeepCopy.KubemarkMachineList.ListViewsTellAll` | api/v1alpha4/zz_generated.deepcopy.go:79-90 | lists look alike exactly if they are nil alike and their items are deeply equal in order |
| `DeepCopy.KubemarkMachineList.EditsStayInTheCopy` | api/v1alpha4/zz_generated.deepcopy.go:79-100 | if nothing but objects that the copy reached has been written since, the original looks and reaches as before |
| `Boilerplate.FilePasses` | hack/boilerplate/boilerplate.py:72-148 | the checker's verdict, or the missing reference key |
| `Boilerplate.StampOutLoop` | hack/boilerplate/boilerplate.py:131-135 | years replaced on the first line that has any, later lines untouched |
| `Header.VerdictExactly` | hack/boilerplate/boilerplate.py:64-148 | of a text given as joined lines: unreadable files are refused, a missing reference key is an error, a generated file has to begin with its reference as it is, any other with the reference stamped with a year that it takes |
| `Header.SplitUndoesUnlines` | hack/boilerplate/boilerplate.py:106 | lines free of breaks, joined with or without a final newline, are given back by splitting, empty ones included |
| `Header.SplitAtBreak` | hack/boilerplate/boilerplate.py:106 | each break ends a line, and a carriage return with a newline counts once |
| `Header.LinesArePlain` | hack/boilerplate/boilerplate.py:106 | no line holds a break |
| `Header.BreaksAreLineBoundaries` | hack/boilerplate/boilerplate.py:106 | the characters that end a line, by code point |
| `Header.GeneratedExactly` | hack/boilerplate/boilerplate.py:64-70 | a file is generated exactly if it says so and is not one of the two that only mention it |
| `Header.LegalYearsAreNumbers` | hack/boilerplate/boilerplate.py:197-199 | the legal years are the four-digit numbers from 2014 to the current year |
| `Stamp.FilePassesIffStamped` | hack/boilerplate/boilerplate.py:98-148 | for every template with one YEAR: a file that is not generated passes if and only if its stripped header is the template with YEAR replaced by one year from 2014 to now that the template takes |
| `Stamp.StampIsReplacedExactly` | hack/boilerplate/boilerplate.py:131-135 | substitution turns a stamped line back into the template line if and only if no legal year begins in front of the stamp and none is behind it |
| `Stamp.OnlyStampsAtYear` | hack/boilerplate/boilerplate.py:131-135 | a line that substitutes to a line with one YEAR had its first legal year at that place, and none behind it |
| `Stamp.CleanTemplatesTakeAllStamps` | hack/boilerplate/boilerplate.py:197-207 | a template with no legal year, whose YEAR is not behind a digit, takes every legal year |
| `Stamp.DigitBeforeStamp` | hack/boilerplate/boilerplate.py:197-207 | behind a digit it depends: 20YEAR does not take 2014 and 9YEAR does |
| `Preambles.PreambleIsNeutral` | hack/boilerplate/boilerplate.py:98-104 | a shebang line with empty lines in front of a script, or build constraints with an empty line in front of a Go file, leave the verdict unchanged |
| `Preambles.StripRemovesTheFirst` | hack/boilerplate/boilerplate.py:98-104 | of any text the first shebang block, or the first block of build constraints, that begins at a line start is removed, and nothing else |

## Left out

- Convergence.BecomesClean: on servers that take new finalizers during deletion nothing is said about later steps, because
  a machine kept alive by someone else's finalizer gets this controller's back from the next reconcile; what happens there
  is `Losses.ReleasesExactlyWhenClaimedBefore`.
- Boilerplate.FilePasses: for years with four digits, and with base name and extension of the path given.
- Reconciler.KubemarkMachineReconciler.Reconcile: log messages, the text of errors and the length of
  requeue delays are not modelled; an error and a requeue with an error are one answer.
- The branch that waits for a nil cluster client: the only implementation of the interface never returns one without an
  error.
- Key generation, certificates, PEM and kubeconfig encoding: one step that yields opaque bytes or fails, together with
  reading the cluster CA.
- Semver: a version carries the verdict of the library as unparsable, too low or supported.
- Quantities: known by their printed form; parsing, canonical forms and the comparison of unequal representations of one
  quantity are not modelled.
- Deep copy of object metadata and conditions: library code, modelled as values; flat pointers of a spec are copied
  before the mounts, an order that nothing can observe. The nil receiver check and the template wrappers would only
  repeat the same proofs.
- `Pod.owner` and `Secret.owner` record which machine's reconcile created an object; the source has no such field and
  never reads one.
- Stale caches, overlapping leaders, graceful Pod termination and garbage collection.
- REST plumbing, watches, predicates, manager start-up, file walking, image publishing.
