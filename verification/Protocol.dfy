/** The KubemarkMachine reconcile as a transition system: one server, one worker per machine key, one step
    per API call (controllers/kubemarkmachine_controller.go, Reconcile). */
module Protocol {
  import opened Common
  import opened ExtendedResources
  import opened KubemarkCluster
  import opened HollowPod

  const MACHINE_FINALIZER := "kubemarkmachine.infrastructure.cluster.x-k8s.io"

  datatype KubemarkMachine = KubemarkMachine(
    deleting: bool,
    finalizers: set<string>,
    secretRef: Option<SecretRef>,
    mounts: seq<Mount>,
    options: Option<ResourceList>,
    providerID: Option<string>,
    ready: bool)

  /** The owner Machine of a KubemarkMachine, as far as the reconcile reads or writes it. */
  datatype Owner = Owner(providerID: Option<string>, bootstrapData: bool, version: Option<Version>, cluster: string)

  /** A Secret holding the kubelet certificate; `bytes` stands for its opaque contents. */
  datatype Secret = Secret(owner: Key, bytes: nat)

  /** Everything behind the API. `strict`: the server refuses new finalizers on an object under deletion.
      `owners` is indexed by the key of the KubemarkMachine that the Machine owns. A cluster is present
      with its InfrastructureReady bit. */
  datatype Server = Server(
    strict: bool,
    image: string,
    hosts: map<SecretRef, HostSecret>,
    machines: map<Key, KubemarkMachine>,
    owners: map<Key, Owner>,
    clusters: map<string, bool>,
    pods: map<Target, Pod>,
    secrets: map<Target, Secret>)

  /** Local variables of a running reconcile: the snapshots taken by the two patch helpers and the working
      copies they are diffed against. */
  datatype Local = Local(snap: KubemarkMachine, km: KubemarkMachine, osnap: Owner, owner: Owner, infra: bool)

  datatype PC = DeletePod | DeleteSecret | RemoteConfig | ReadCA | CreateSecret | CreatePod

  /** Where a worker stands; each constructor but Idle names the call it makes next. */
  datatype Worker =
    | Idle
    | GotMachine(snap: KubemarkMachine)
    | GotOwner(snap: KubemarkMachine, osnap: Owner)
    | GotCluster(snap: KubemarkMachine, osnap: Owner, infra: bool)
    | Resolving(l: Local)
    | Body(pc: PC, l: Local, target: Target)
    | DeferMachine(l: Local)
    | DeferMeta(l: Local)
    | DeferStatus(l: Local)

  datatype State = State(srv: Server, workers: map<Key, Worker>)

  /** How a call ends. A failing call may have been carried out by the server before the reply was lost. */
  datatype Outcome = Fine | Fault(applied: bool)

  /** The outcome of one call, with the nondeterminism it needs: certificate bytes and map iteration order. */
  datatype Choice = Choice(outcome: Outcome, bytes: nat, order: seq<string>)

  predicate Lands(o: Outcome) {
    o.Fine? || o.applied
  }

  function ProviderID(k: Key): string {
    "kubemark://" + k.name
  }

  function W(s: State, k: Key): Worker {
    if k in s.workers then s.workers[k] else Idle
  }

  function Place(srv: Server, k: Key, km: KubemarkMachine): Option<Target> {
    TargetOf(srv.hosts, k, km.secretRef)
  }

  // ---------- server side of the calls ----------

  /** Storing a machine; an object under deletion goes away with its last finalizer. */
  function PutMachine(machines: map<Key, KubemarkMachine>, k: Key, m: KubemarkMachine): map<Key, KubemarkMachine> {
    if m.deleting && m.finalizers == {} then machines - {k} else machines[k := m]
  }

  predicate HasMetaDiff(snap: KubemarkMachine, km: KubemarkMachine) {
    km.finalizers != snap.finalizers || km.providerID != snap.providerID
  }

  /** The server accepts the metadata and spec part of the diff between `snap` and `km`. */
  predicate AcceptsMeta(srv: Server, k: Key, snap: KubemarkMachine, km: KubemarkMachine) {
    && k in srv.machines
    && (km.finalizers != snap.finalizers && srv.strict && srv.machines[k].deleting
        ==> km.finalizers <= srv.machines[k].finalizers)
  }

  /** A merge patch replaces the whole finalizer list if it differs, likewise the provider ID. */
  function MetaPatched(m: KubemarkMachine, snap: KubemarkMachine, km: KubemarkMachine): KubemarkMachine {
    m.(finalizers := if km.finalizers != snap.finalizers then km.finalizers else m.finalizers,
       providerID := if km.providerID != snap.providerID then km.providerID else m.providerID)
  }

  // Each writing call below gives the collection it leaves behind.

  function PatchMeta(srv: Server, k: Key, snap: KubemarkMachine, km: KubemarkMachine, o: Outcome)
    : map<Key, KubemarkMachine>
  {
    if Lands(o) && HasMetaDiff(snap, km) && AcceptsMeta(srv, k, snap, km)
    then PutMachine(srv.machines, k, MetaPatched(srv.machines[k], snap, km))
    else srv.machines
  }

  function PatchStatus(machines: map<Key, KubemarkMachine>, k: Key, snap: KubemarkMachine, km: KubemarkMachine, o: Outcome)
    : map<Key, KubemarkMachine>
  {
    if Lands(o) && km.ready != snap.ready && k in machines then machines[k := machines[k].(ready := km.ready)]
    else machines
  }

  function PatchOwner(owners: map<Key, Owner>, k: Key, osnap: Owner, owner: Owner, o: Outcome): map<Key, Owner> {
    if Lands(o) && owner.providerID != osnap.providerID && k in owners
    then owners[k := owners[k].(providerID := owner.providerID)]
    else owners
  }

  /** Creating something that already exists changes nothing. */
  function Create<V>(objects: map<Target, V>, t: Target, v: V, o: Outcome): map<Target, V> {
    if Lands(o) && t !in objects then objects[t := v] else objects
  }

  function Delete<V>(objects: map<Target, V>, t: Target, o: Outcome): map<Target, V> {
    if Lands(o) then objects - {t} else objects
  }

  // ---------- one step of a worker ----------

  function Claim(snap: KubemarkMachine): KubemarkMachine {
    snap.(finalizers := snap.finalizers + {MACHINE_FINALIZER})
  }

  function Release(km: KubemarkMachine): KubemarkMachine {
    km.(finalizers := km.finalizers - {MACHINE_FINALIZER})
  }

  function Publish(k: Key, l: Local): Local {
    l.(km := l.km.(providerID := Some(ProviderID(k)), ready := true),
       owner := l.owner.(providerID := Some(ProviderID(k))))
  }

  /** The choice offers a usable iteration order when one is needed. */
  ghost predicate ChoiceOk(w: Worker, c: Choice) {
    w.Body? && w.pc.CreatePod? ==>
      PodAllowed(w.l.osnap.version, w.l.km.options) && IsOrder(c.order, Overlay(w.l.km.options))
  }

  /** What the worker's next API call does to the machines. */
  function MachinesAfter(srv: Server, k: Key, w: Worker, o: Outcome): map<Key, KubemarkMachine> {
    match w
    case GotCluster(snap, _, _) => PatchMeta(srv, k, snap, Claim(snap), o)
    case DeferMeta(l) => PatchMeta(srv, k, l.snap, l.km, o)
    case DeferStatus(l) => PatchStatus(srv.machines, k, l.snap, l.km, o)
    case _ => srv.machines
  }

  function OwnersAfter(owners: map<Key, Owner>, k: Key, w: Worker, o: Outcome): map<Key, Owner> {
    match w
    case DeferMachine(l) => PatchOwner(owners, k, l.osnap, l.owner, o)
    case _ => owners
  }

  ghost function PodsAfter(srv: Server, k: Key, w: Worker, c: Choice): map<Target, Pod>
    requires ChoiceOk(w, c)
  {
    if !w.Body? then srv.pods
    else if w.pc.DeletePod? then Delete(srv.pods, w.target, c.outcome)
    else if w.pc.CreatePod? then Create(srv.pods, w.target, PodOf(srv.image, k, w, c.order), c.outcome)
    else srv.pods
  }

  function SecretsAfter(secrets: map<Target, Secret>, k: Key, w: Worker, c: Choice): map<Target, Secret> {
    if !w.Body? then secrets
    else if w.pc.DeleteSecret? then Delete(secrets, w.target, c.outcome)
    else if w.pc.CreateSecret? then Create(secrets, w.target, Secret(k, c.bytes), c.outcome)
    else secrets
  }

  /** The Pod that a worker at CreatePod asks for. */
  ghost function PodOf(image: string, k: Key, w: Worker, order: seq<string>): Pod
    requires w.Body? && w.l.osnap.version.Some? && IsOrder(order, Overlay(w.l.km.options))
  {
    BuildPod(image, k, w.target, w.l.km.mounts, w.l.km.options, w.l.osnap.version.value, order)
  }

  /** The server after the worker's next API call. */
  ghost function Effect(srv: Server, k: Key, w: Worker, c: Choice): Server
    requires ChoiceOk(w, c)
  {
    srv.(machines := MachinesAfter(srv, k, w, c.outcome),
         owners := OwnersAfter(srv.owners, k, w, c.outcome),
         pods := PodsAfter(srv, k, w, c),
         secrets := SecretsAfter(srv.secrets, k, w, c))
  }

  /** The code between the reply to that call and the next call. */
  function Continue(srv: Server, k: Key, w: Worker, o: Outcome): Worker {
    match w
    case Idle => if o.Fine? && k in srv.machines then GotMachine(srv.machines[k]) else Idle
    case GotMachine(snap) => if o.Fine? && k in srv.owners then GotOwner(snap, srv.owners[k]) else Idle
    case GotOwner(snap, osnap) =>
      if o.Fine? && osnap.cluster in srv.clusters then GotCluster(snap, osnap, srv.clusters[osnap.cluster]) else Idle
    case GotCluster(snap, osnap, infra) =>
      if !HasMetaDiff(snap, Claim(snap)) || (o.Fine? && AcceptsMeta(srv, k, snap, Claim(snap)))
      then Resolving(Local(snap, Claim(snap), osnap, osnap, infra))
      else Idle
    case Resolving(l) =>
      var place := Place(srv, k, l.km);
      if (l.km.secretRef.Some? && !o.Fine?) || place.None? then DeferMeta(l)
      else if l.km.deleting then Body(DeletePod, l, place.value)
      else if l.km.ready then DeferMeta(l)
      else Body(RemoteConfig, l, place.value)
    case Body(pc, l, t) => ContinueBody(k, pc, l, t, o)
    case DeferMachine(l) => DeferMeta(l)
    case DeferMeta(l) => DeferStatus(l)
    case DeferStatus(_) => Idle
  }

  function ContinueBody(k: Key, pc: PC, l: Local, t: Target, o: Outcome): Worker {
    match pc
    case DeletePod => if o.Fine? then Body(DeleteSecret, l, t) else DeferMeta(l)
    case DeleteSecret => DeferMeta(if o.Fine? then l.(km := Release(l.km)) else l)
    case RemoteConfig => if o.Fine? && l.infra && l.osnap.bootstrapData then Body(ReadCA, l, t) else DeferMachine(l)
    case ReadCA => if o.Fine? then Body(CreateSecret, l, t) else DeferMachine(l)
    case CreateSecret =>
      if o.Fine? && PodAllowed(l.osnap.version, l.km.options) then Body(CreatePod, l, t) else DeferMachine(l)
    case CreatePod => DeferMachine(if o.Fine? then Publish(k, l) else l)
  }

  // ---------- events ----------

  /** What everyone but this controller may do. */
  datatype EnvEvent =
    | CreateMachine(k: Key, m: KubemarkMachine)
    | RequestDeletion(k: Key)
    | EditFinalizers(k: Key, finalizers: set<string>)
    | EditSpec(k: Key, mounts: seq<Mount>, options: Option<ResourceList>)
    | SetOwner(k: Key, owner: Owner)
    | EditOwner(k: Key, bootstrapData: bool, version: Option<Version>, cluster: string)
    | DropOwner(k: Key)
    | SetCluster(cluster: string, infrastructureReady: bool)
    | DropCluster(cluster: string)

  datatype Event = Act(k: Key, choice: Choice) | Crash(k: Key) | Env(e: EnvEvent)

  /** Nothing patched yet: the machine has been read, its finalizer has not been written. */
  predicate BeforeFirstPatch(w: Worker) {
    w.GotMachine? || w.GotOwner? || w.GotCluster?
  }

  /** The environment assumptions: a same-name machine does not appear between a reconcile's read and its
      first patch; only this controller removes its finalizer or writes provider IDs; secret references are
      not edited; a Machine outlives the KubemarkMachine it owns. */
  predicate EnvEnabled(s: State, e: EnvEvent) {
    match e
    case CreateMachine(k, m) => k !in s.srv.machines && !m.ready && !m.deleting && !BeforeFirstPatch(W(s, k))
    case RequestDeletion(k) => k in s.srv.machines
    case EditFinalizers(k, f) =>
      && k in s.srv.machines
      && (MACHINE_FINALIZER in f <==> MACHINE_FINALIZER in s.srv.machines[k].finalizers)
      && (s.srv.strict && s.srv.machines[k].deleting ==> f <= s.srv.machines[k].finalizers)
    case EditSpec(k, _, _) => k in s.srv.machines
    case SetOwner(k, _) => k in s.srv.machines && k !in s.srv.owners
    case EditOwner(k, _, _, _) => k in s.srv.owners
    case DropOwner(k) => k !in s.srv.machines
    case SetCluster(_, _) => true
    case DropCluster(_) => true
  }

  /** The effect of an event on the machine that it edits. */
  function Edited(m: KubemarkMachine, e: EnvEvent): KubemarkMachine {
    match e
    case RequestDeletion(_) => m.(deleting := true)
    case EditFinalizers(_, f) => m.(finalizers := f)
    case EditSpec(_, mounts, options) => m.(mounts := mounts, options := options)
    case _ => m
  }

  function EnvMachines(machines: map<Key, KubemarkMachine>, e: EnvEvent): map<Key, KubemarkMachine> {
    if e.CreateMachine? then machines[e.k := e.m]
    else if (e.RequestDeletion? || e.EditFinalizers? || e.EditSpec?) && e.k in machines
    then PutMachine(machines, e.k, Edited(machines[e.k], e))
    else machines
  }

  function EnvOwners(owners: map<Key, Owner>, e: EnvEvent): map<Key, Owner> {
    match e
    case SetOwner(k, owner) => owners[k := owner]
    case EditOwner(k, data, version, cluster) =>
      if k in owners then owners[k := owners[k].(bootstrapData := data, version := version, cluster := cluster)]
      else owners
    case DropOwner(k) => owners - {k}
    case _ => owners
  }

  function EnvClusters(clusters: map<string, bool>, e: EnvEvent): map<string, bool> {
    match e
    case SetCluster(cluster, ready) => clusters[cluster := ready]
    case DropCluster(cluster) => clusters - {cluster}
    case _ => clusters
  }

  function EnvStep(srv: Server, e: EnvEvent): Server {
    srv.(machines := EnvMachines(srv.machines, e),
         owners := EnvOwners(srv.owners, e),
         clusters := EnvClusters(srv.clusters, e))
  }

  ghost predicate Enabled(s: State, ev: Event) {
    match ev
    case Act(k, c) => ChoiceOk(W(s, k), c)
    case Crash(k) => !W(s, k).Idle?
    case Env(e) => EnvEnabled(s, e)
  }

  ghost function Next(s: State, ev: Event): State
    requires Enabled(s, ev)
  {
    match ev
    case Act(k, c) =>
      State(Effect(s.srv, k, W(s, k), c), s.workers[k := Continue(s.srv, k, W(s, k), c.outcome)])
    case Crash(k) => s.(workers := s.workers[k := Idle])
    case Env(e) => s.(srv := EnvStep(s.srv, e))
  }

  ghost predicate Init(s: State) {
    && s.workers == map[]
    && s.srv.machines == map[] && s.srv.owners == map[] && s.srv.clusters == map[]
    && s.srv.pods == map[] && s.srv.secrets == map[]
  }

  /** `ss[i]` is the state before event `i`. */
  ghost predicate IsRun(ss: seq<State>, evs: seq<Event>) {
    && |ss| == |evs| + 1
    && forall i :: 0 <= i < |evs| ==> Enabled(ss[i], evs[i]) && ss[i + 1] == Next(ss[i], evs[i])
  }
}
