/** What every step of the protocol keeps, and what follows for every reachable state. */
module Safety {
  import opened Common
  import opened KubemarkCluster
  import opened HollowPod
  import opened Protocol

  // ---------- the invariant ----------

  predicate Claimed(m: KubemarkMachine) {
    MACHINE_FINALIZER in m.finalizers
  }

  predicate Ready(srv: Server, k: Key) {
    k in srv.machines && srv.machines[k].ready
  }

  /** `m` is the object that `snap` was read from, with nothing changed that only the worker may change. */
  predicate SameLife(m: KubemarkMachine, snap: KubemarkMachine) {
    && m.secretRef == snap.secretRef
    && (snap.deleting ==> m.deleting)
    && m.ready == snap.ready
    && m.providerID == snap.providerID
  }

  predicate SameOwner(srv: Server, k: Key, osnap: Owner) {
    k in srv.machines ==> k in srv.owners && srv.owners[k].providerID == osnap.providerID
  }

  /** Between the read and the first patch the object may vanish, but only if it carried no claim. */
  predicate Fresh(srv: Server, k: Key, snap: KubemarkMachine) {
    && (Claimed(snap) ==> k in srv.machines)
    && (k in srv.machines ==> SameLife(srv.machines[k], snap) && (Claimed(srv.machines[k]) <==> Claimed(snap)))
  }

  predicate Held(srv: Server, k: Key, l: Local) {
    k in srv.machines && SameLife(srv.machines[k], l.snap) && Claimed(srv.machines[k])
  }

  ghost predicate NoPodOf(srv: Server, k: Key) {
    forall t :: t in srv.pods ==> srv.pods[t].owner != k
  }

  ghost predicate NoSecretOf(srv: Server, k: Key) {
    forall t :: t in srv.secrets ==> srv.secrets[t].owner != k
  }

  predicate Untouched(l: Local) {
    l.km == Claim(l.snap) && l.owner == l.osnap
  }

  predicate Published(k: Key, l: Local) {
    l == Publish(k, l.(km := Claim(l.snap), owner := l.osnap))
  }

  predicate CreatePath(l: Local) {
    !l.snap.deleting && !l.snap.ready
  }

  ghost predicate BodyInv(srv: Server, k: Key, pc: PC, l: Local, t: Target) {
    && Held(srv, k, l) && SameOwner(srv, k, l.osnap) && Untouched(l)
    && Place(srv, k, l.snap) == Some(t)
    && match pc
       case DeletePod => l.snap.deleting
       case DeleteSecret => l.snap.deleting && NoPodOf(srv, k)
       case RemoteConfig => CreatePath(l)
       case ReadCA => CreatePath(l) && l.infra && l.osnap.bootstrapData
       case CreateSecret => CreatePath(l) && l.infra && l.osnap.bootstrapData
       case CreatePod =>
         CreatePath(l) && l.infra && l.osnap.bootstrapData && PodAllowed(l.osnap.version, l.snap.options)
  }

  ghost predicate WorkerInv(srv: Server, k: Key, w: Worker) {
    match w
    case Idle => true
    case GotMachine(snap) => Fresh(srv, k, snap)
    case GotOwner(snap, osnap) => Fresh(srv, k, snap) && SameOwner(srv, k, osnap)
    case GotCluster(snap, osnap, _) => Fresh(srv, k, snap) && SameOwner(srv, k, osnap)
    case Resolving(l) => Held(srv, k, l) && SameOwner(srv, k, l.osnap) && Untouched(l)
    case Body(pc, l, t) => BodyInv(srv, k, pc, l, t)
    case DeferMachine(l) =>
      Held(srv, k, l) && SameOwner(srv, k, l.osnap) && CreatePath(l) && (Untouched(l) || Published(k, l))
    case DeferMeta(l) =>
      || (Held(srv, k, l) && (Untouched(l) || (CreatePath(l) && Published(k, l))))
      || (Held(srv, k, l) && l.snap.deleting && l.km == Release(Claim(l.snap)) && NoPodOf(srv, k) && NoSecretOf(srv, k))
    case DeferStatus(l) =>
      l.km.ready != l.snap.ready ==>
        && CreatePath(l) && Published(k, l) && k in srv.machines && Claimed(srv.machines[k])
        && srv.machines[k].secretRef == l.snap.secretRef
  }

  /** A Pod or Secret at `t` made for machine `k`: the machine is there, claimed, and lives at `t`. */
  predicate Anchored(srv: Server, k: Key, t: Target) {
    k in srv.machines && Claimed(srv.machines[k]) && Place(srv, k, srv.machines[k]) == Some(t)
  }

  ghost predicate ServerInv(srv: Server) {
    && (forall k :: k in srv.machines && srv.machines[k].ready && !srv.machines[k].deleting ==> Claimed(srv.machines[k]))
    && (forall t :: t in srv.pods ==> Anchored(srv, srv.pods[t].owner, t))
    && (forall t :: t in srv.secrets ==> Anchored(srv, srv.secrets[t].owner, t))
  }

  ghost predicate Inv(s: State) {
    ServerInv(s.srv) && forall k :: WorkerInv(s.srv, k, W(s, k))
  }

  // ---------- preservation ----------

  /** Between the two servers only machine `k`, its owner, and Pods and Secrets made for it differ, apart
      from removals of Pods and Secrets. */
  ghost predicate OnlyFor(a: Server, b: Server, k: Key) {
    && a.hosts == b.hosts
    && a.machines - {k} == b.machines - {k}
    && a.owners - {k} == b.owners - {k}
    && (forall t :: t in b.pods && b.pods[t].owner != k ==> t in a.pods && a.pods[t] == b.pods[t])
    && (forall t :: t in b.secrets && b.secrets[t].owner != k ==> t in a.secrets && a.secrets[t] == b.secrets[t])
  }

  lemma PodsStayAnchored(srv: Server, k: Key, w: Worker, c: Choice)
    requires w.Body? && ChoiceOk(w, c)
    requires ServerInv(srv) && WorkerInv(srv, k, w)
    ensures var pods := PodsAfter(srv, k, w, c);
            && (forall t :: t in pods ==> Anchored(srv, pods[t].owner, t))
            && (forall t :: t in pods && pods[t].owner != k ==> t in srv.pods && srv.pods[t] == pods[t])
            && (w.pc.DeletePod? && c.outcome.Fine? ==> forall t :: t in pods ==> pods[t].owner != k)
            && (NoPodOf(srv, k) && !w.pc.CreatePod? ==> forall t :: t in pods ==> pods[t].owner != k)
  {
    assert Anchored(srv, k, w.target);
  }

  lemma SecretsStayAnchored(srv: Server, k: Key, w: Worker, c: Choice)
    requires w.Body?
    requires ServerInv(srv) && WorkerInv(srv, k, w)
    ensures var secrets := SecretsAfter(srv.secrets, k, w, c);
            && (forall t :: t in secrets ==> Anchored(srv, secrets[t].owner, t))
            && (forall t :: t in secrets && secrets[t].owner != k ==> t in srv.secrets && srv.secrets[t] == secrets[t])
            && (w.pc.DeleteSecret? && c.outcome.Fine? ==> forall t :: t in secrets ==> secrets[t].owner != k)
  {
    assert Anchored(srv, k, w.target);
  }

  lemma BodyKeepsInv(srv: Server, k: Key, w: Worker, c: Choice)
    requires w.Body? && ChoiceOk(w, c)
    requires ServerInv(srv) && WorkerInv(srv, k, w)
    ensures var srv' := Effect(srv, k, w, c);
            ServerInv(srv') && OnlyFor(srv, srv', k) && WorkerInv(srv', k, Continue(srv, k, w, c.outcome))
  {
    hide TargetOf, PodsAfter, SecretsAfter;
    PodsStayAnchored(srv, k, w, c);
    SecretsStayAnchored(srv, k, w, c);
  }

  /** Overwriting machine `k` keeps the server invariant if the new version is still claimed, at the same
      place, or is under deletion with nothing left behind. */
  lemma RewriteKeepsInv(srv: Server, k: Key, m: KubemarkMachine, srv': Server)
    requires ServerInv(srv) && k in srv.machines
    requires srv' == srv.(machines := PutMachine(srv.machines, k, m))
    requires m.secretRef == srv.machines[k].secretRef
    requires m.ready && !m.deleting ==> Claimed(m)
    requires Claimed(srv.machines[k]) ==> Claimed(m) || (NoPodOf(srv, k) && NoSecretOf(srv, k))
    ensures ServerInv(srv') && OnlyFor(srv, srv', k)
  {
    hide TargetOf;
  }

  lemma DeferMetaKeepsInv(srv: Server, k: Key, l: Local, o: Outcome)
    requires ServerInv(srv) && WorkerInv(srv, k, DeferMeta(l))
    ensures var srv' := srv.(machines := PatchMeta(srv, k, l.snap, l.km, o));
            ServerInv(srv') && WorkerInv(srv', k, DeferStatus(l)) && OnlyFor(srv, srv', k)
  {
    var srv' := srv.(machines := PatchMeta(srv, k, l.snap, l.km, o));
    if srv'.machines != srv.machines {
      RewriteKeepsInv(srv, k, MetaPatched(srv.machines[k], l.snap, l.km), srv');
    }
  }

  lemma FirstPatchKeepsInv(srv: Server, k: Key, w: Worker, o: Outcome)
    requires w.GotCluster? && ServerInv(srv) && WorkerInv(srv, k, w)
    ensures var srv' := srv.(machines := PatchMeta(srv, k, w.snap, Claim(w.snap), o));
            ServerInv(srv') && WorkerInv(srv', k, Continue(srv, k, w, o)) && OnlyFor(srv, srv', k)
  {
    var srv' := srv.(machines := PatchMeta(srv, k, w.snap, Claim(w.snap), o));
    if srv'.machines != srv.machines {
      RewriteKeepsInv(srv, k, MetaPatched(srv.machines[k], w.snap, Claim(w.snap)), srv');
    }
  }

  lemma DeferStatusKeepsInv(srv: Server, k: Key, l: Local, o: Outcome)
    requires ServerInv(srv) && WorkerInv(srv, k, DeferStatus(l))
    ensures var srv' := srv.(machines := PatchStatus(srv.machines, k, l.snap, l.km, o));
            ServerInv(srv') && OnlyFor(srv, srv', k)
  {
    var srv' := srv.(machines := PatchStatus(srv.machines, k, l.snap, l.km, o));
    if srv'.machines != srv.machines {
      RewriteKeepsInv(srv, k, srv.machines[k].(ready := l.km.ready), srv');
    }
  }

  lemma DeferMachineKeepsInv(srv: Server, k: Key, l: Local, o: Outcome)
    requires ServerInv(srv) && WorkerInv(srv, k, DeferMachine(l))
    ensures var srv' := srv.(owners := PatchOwner(srv.owners, k, l.osnap, l.owner, o));
            ServerInv(srv') && WorkerInv(srv', k, DeferMeta(l)) && OnlyFor(srv, srv', k)
  {
  }

  lemma ReadKeepsInv(srv: Server, k: Key, w: Worker, o: Outcome)
    requires w.Idle? || w.GotMachine? || w.GotOwner? || w.Resolving?
    requires ServerInv(srv) && WorkerInv(srv, k, w)
    ensures WorkerInv(srv, k, Continue(srv, k, w, o))
  {
    if w.Resolving? {
      assert Place(srv, k, w.l.km) == Place(srv, k, w.l.snap);
    }
  }

  lemma WorkerKeepsInv(srv: Server, k: Key, w: Worker, c: Choice)
    requires ChoiceOk(w, c)
    requires ServerInv(srv) && WorkerInv(srv, k, w)
    ensures var srv' := Effect(srv, k, w, c);
            ServerInv(srv') && OnlyFor(srv, srv', k) && WorkerInv(srv', k, Continue(srv, k, w, c.outcome))
  {
    match w
    case Idle => ReadKeepsInv(srv, k, w, c.outcome);
    case GotMachine(_) => ReadKeepsInv(srv, k, w, c.outcome);
    case GotOwner(_, _) => ReadKeepsInv(srv, k, w, c.outcome);
    case GotCluster(_, _, _) => FirstPatchKeepsInv(srv, k, w, c.outcome);
    case Resolving(_) => ReadKeepsInv(srv, k, w, c.outcome);
    case Body(_, _, _) => BodyKeepsInv(srv, k, w, c);
    case DeferMachine(l) => DeferMachineKeepsInv(srv, k, l, c.outcome);
    case DeferMeta(l) => DeferMetaKeepsInv(srv, k, l, c.outcome);
    case DeferStatus(l) => DeferStatusKeepsInv(srv, k, l, c.outcome);
  }

  lemma OthersAreTheSame(a: Server, b: Server, k: Key, j: Key)
    requires OnlyFor(a, b, k) && j != k
    ensures (j in a.machines <==> j in b.machines) && (j in a.machines ==> a.machines[j] == b.machines[j])
    ensures (j in a.owners <==> j in b.owners) && (j in a.owners ==> a.owners[j] == b.owners[j])
  {
    assert j in a.machines <==> j in a.machines - {k};
    assert j in b.machines <==> j in b.machines - {k};
    assert j in a.owners <==> j in a.owners - {k};
    assert j in b.owners <==> j in b.owners - {k};
    assert j in a.machines ==> a.machines[j] == (a.machines - {k})[j];
    assert j in a.owners ==> a.owners[j] == (a.owners - {k})[j];
  }

  lemma OthersKeepInv(a: Server, b: Server, k: Key, j: Key, w: Worker)
    requires OnlyFor(a, b, k) && j != k && WorkerInv(a, j, w)
    ensures WorkerInv(b, j, w)
  {
    OthersAreTheSame(a, b, k, j);
  }

  function EventKey(e: EnvEvent): Option<Key> {
    match e
    case CreateMachine(k, _) => Some(k)
    case RequestDeletion(k) => Some(k)
    case EditFinalizers(k, _) => Some(k)
    case EditSpec(k, _, _) => Some(k)
    case SetOwner(k, _) => Some(k)
    case EditOwner(k, _, _, _) => Some(k)
    case DropOwner(k) => Some(k)
    case SetCluster(_, _) => None
    case DropCluster(_) => None
  }

  lemma UnclaimedOwnsNothing(srv: Server, k: Key)
    requires ServerInv(srv) && (k !in srv.machines || !Claimed(srv.machines[k]))
    ensures NoPodOf(srv, k) && NoSecretOf(srv, k)
  {
  }

  lemma CreationKeepsInv(s: State, k: Key, m: KubemarkMachine)
    requires Inv(s) && EnvEnabled(s, CreateMachine(k, m))
    ensures var srv' := EnvStep(s.srv, CreateMachine(k, m));
            ServerInv(srv') && WorkerInv(srv', k, W(s, k)) && OnlyFor(s.srv, srv', k)
  {
    UnclaimedOwnsNothing(s.srv, k);
    assert WorkerInv(s.srv, k, W(s, k));
  }

  lemma RewriteKeepsWorker(srv: Server, k: Key, m': KubemarkMachine, srv': Server, w: Worker)
    requires WorkerInv(srv, k, w) && k in srv.machines
    requires srv' == srv.(machines := PutMachine(srv.machines, k, m'))
    requires var m := srv.machines[k];
             && m'.secretRef == m.secretRef && m'.providerID == m.providerID && m'.ready == m.ready
             && (m.deleting ==> m'.deleting) && (Claimed(m') <==> Claimed(m))
    ensures WorkerInv(srv', k, w)
  {
  }

  lemma MachineEditKeepsInv(s: State, e: EnvEvent, k: Key)
    requires Inv(s) && EnvEnabled(s, e) && EventKey(e) == Some(k)
    requires e.RequestDeletion? || e.EditFinalizers? || e.EditSpec?
    ensures var srv' := EnvStep(s.srv, e);
            ServerInv(srv') && WorkerInv(srv', k, W(s, k)) && OnlyFor(s.srv, srv', k)
  {
    var m, srv' := s.srv.machines[k], EnvStep(s.srv, e);
    assert WorkerInv(s.srv, k, W(s, k));
    if !Claimed(m) { UnclaimedOwnsNothing(s.srv, k); }
    RewriteKeepsInv(s.srv, k, Edited(m, e), srv');
    RewriteKeepsWorker(s.srv, k, Edited(m, e), srv', W(s, k));
  }

  lemma OwnerEditKeepsInv(s: State, e: EnvEvent, k: Key)
    requires Inv(s) && EnvEnabled(s, e) && EventKey(e) == Some(k)
    requires e.SetOwner? || e.EditOwner? || e.DropOwner?
    ensures var srv' := EnvStep(s.srv, e);
            ServerInv(srv') && WorkerInv(srv', k, W(s, k)) && OnlyFor(s.srv, srv', k)
  {
    assert WorkerInv(s.srv, k, W(s, k));
  }

  lemma ClusterEditKeepsInv(s: State, e: EnvEvent, j: Key)
    requires Inv(s) && EventKey(e).None?
    ensures ServerInv(EnvStep(s.srv, e)) && WorkerInv(EnvStep(s.srv, e), j, W(s, j))
  {
    assert WorkerInv(s.srv, j, W(s, j));
  }

  lemma EnvKeepsInv(s: State, e: EnvEvent)
    requires Inv(s) && EnvEnabled(s, e)
    ensures Inv(Next(s, Env(e)))
  {
    var s' := Next(s, Env(e));
    match EventKey(e)
    case None =>
      forall j ensures WorkerInv(s'.srv, j, W(s', j)) { ClusterEditKeepsInv(s, e, j); }
      ClusterEditKeepsInv(s, e, Key("", ""));
    case Some(k) =>
      if e.CreateMachine? { CreationKeepsInv(s, k, e.m); }
      else if e.SetOwner? || e.EditOwner? || e.DropOwner? { OwnerEditKeepsInv(s, e, k); }
      else { MachineEditKeepsInv(s, e, k); }
      forall j ensures WorkerInv(s'.srv, j, W(s', j)) {
        if j != k { OthersKeepInv(s.srv, s'.srv, k, j, W(s, j)); }
      }
  }

  lemma StepKeepsInv(s: State, ev: Event)
    requires Inv(s) && Enabled(s, ev)
    ensures Inv(Next(s, ev))
  {
    var s' := Next(s, ev);
    match ev
    case Act(k, c) =>
      WorkerKeepsInv(s.srv, k, W(s, k), c);
      forall j ensures WorkerInv(s'.srv, j, W(s', j)) {
        if j != k { OthersKeepInv(s.srv, s'.srv, k, j, W(s, j)); }
      }
    case Crash(k) =>
      forall j ensures WorkerInv(s'.srv, j, W(s', j)) {
        if j != k { assert W(s', j) == W(s, j); }
      }
    case Env(e) => EnvKeepsInv(s, e);
  }

  lemma {:induction false} RunKeepsInv(ss: seq<State>, evs: seq<Event>, i: nat)
    requires IsRun(ss, evs) && Inv(ss[0]) && i <= |evs|
    ensures Inv(ss[i])
  {
    if i > 0 {
      RunKeepsInv(ss, evs, i - 1);
      StepKeepsInv(ss[i - 1], evs[i - 1]);
    }
  }

  lemma InitInv(s: State)
    requires Init(s)
    ensures Inv(s)
  {
  }

  // ---------- consequences for every reachable state ----------

  /** No orphans: whatever was created for a machine, that machine is still there, still claimed, and lives at
      that target; in particular also where a rejected version left a Secret without a Pod. */
  lemma NoOrphans(ss: seq<State>, evs: seq<Event>, i: nat, t: Target)
    requires IsRun(ss, evs) && Init(ss[0]) && i <= |evs|
    ensures t in ss[i].srv.pods ==> Anchored(ss[i].srv, ss[i].srv.pods[t].owner, t)
    ensures t in ss[i].srv.secrets ==> Anchored(ss[i].srv, ss[i].srv.secrets[t].owner, t)
  {
    InitInv(ss[0]);
    RunKeepsInv(ss, evs, i);
  }
}
