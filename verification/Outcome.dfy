/** What one reconcile answers, and what it leaves when no call fails, said from the server it starts on and
    without its steps. */
module Outcome {
  import opened Common
  import opened ExtendedResources
  import opened KubemarkCluster
  import opened HollowPod
  import opened Protocol
  import opened Convergence
  import opened Drive

  const FINALIZER := "kubemarkmachine.infrastructure.cluster.x-k8s.io"

  // ---------- the cases, as the server decides them ----------

  /** There is a machine with an owner Machine to reconcile. */
  predicate Present(srv: Server, k: Key) {
    k in srv.machines && k in srv.owners
  }

  /** The cluster is not there, or the server refuses the finalizer. */
  predicate Blocked(srv: Server, k: Key)
    requires Present(srv, k)
  {
    || srv.owners[k].cluster !in srv.clusters
    || (srv.strict && srv.machines[k].deleting && FINALIZER !in srv.machines[k].finalizers)
  }

  predicate Resolves(srv: Server, k: Key, t: Target)
    requires Present(srv, k)
  {
    t.name == k.name && LeadsTo(srv.hosts, k.namespace, srv.machines[k].secretRef, t.host, t.namespace)
  }

  /** The infrastructure or the bootstrap data is missing. */
  predicate Gated(srv: Server, k: Key)
    requires Present(srv, k) && srv.owners[k].cluster in srv.clusters
  {
    !srv.clusters[srv.owners[k].cluster] || !srv.owners[k].bootstrapData
  }

  /** There is a Pod to be made, and the version does not allow it. */
  predicate Refused(srv: Server, k: Key)
    requires Present(srv, k) && srv.owners[k].cluster in srv.clusters
  {
    && !srv.machines[k].deleting && !srv.machines[k].ready && !Gated(srv, k)
    && !Admits(srv.owners[k].version, srv.machines[k].options)
  }

  /** However the calls go, the reconcile cannot but fail. */
  ghost predicate Hopeless(srv: Server, k: Key) {
    Present(srv, k) && (Blocked(srv, k) || (forall t :: !Resolves(srv, k, t)) || Refused(srv, k))
  }

  // ---------- the way of a reconcile through its calls ----------

  predicate Main(w: Worker) {
    w.Idle? || w.GotMachine? || w.GotOwner? || w.GotCluster? || w.Resolving? || w.Body?
  }

  /** A call before the deferred patches is really made: the patch helper sends nothing without a difference,
      and no secret is read without a reference. */
  predicate Sends(w: Worker) {
    match w
    case GotCluster(snap, _, _) => FINALIZER !in snap.finalizers
    case Resolving(l) => l.km.secretRef.Some?
    case _ => Main(w)
  }

  /** Some call before the deferred patches fails. */
  ghost predicate EverFaults(srv: Server, k: Key, w: Worker, script: seq<Move>)
    requires ScriptOk(srv, k, w, script)
    decreases |script|
  {
    && script != [] && script[0].Call?
    && var c := script[0].c;
       var w' := Continue(srv, k, w, c.outcome);
       (Sends(w) && c.outcome.Fault?) || (!w'.Idle? && EverFaults(Effect(srv, k, w, c), k, w', script[1..]))
  }

  /** The machine as the first patch leaves it. */
  function WithFinalizer(m: KubemarkMachine): KubemarkMachine {
    m.(finalizers := m.finalizers + {FINALIZER})
  }

  predicate Started(a: Server, k: Key, l: Local) {
    && Present(a, k) && !Blocked(a, k)
    && l == Local(a.machines[k], WithFinalizer(a.machines[k]), a.owners[k], a.owners[k], a.clusters[a.owners[k].cluster])
  }

  function AfterClaim(a: Server, k: Key): Server
    requires Present(a, k)
  {
    a.(machines := a.machines[k := WithFinalizer(a.machines[k])])
  }

  /** `s` has the Secret made for `k` at `t`, unless one was there. */
  predicate SecretMade(a: map<Target, Secret>, s: map<Target, Secret>, k: Key, t: Target) {
    && t in s && s == a[t := s[t]]
    && if t in a then s[t] == a[t] else s[t].owner == k
  }

  ghost predicate PodMade(a: Server, pods: map<Target, Pod>, k: Key, t: Target)
    requires Present(a, k)
  {
    && t in pods && pods == a.pods[t := pods[t]]
    && if t in a.pods then pods[t] == a.pods[t]
       else
         && a.owners[k].version.Some? && pods[t].owner == k
         && IsHollowNode(a.image, t, a.machines[k].mounts, a.machines[k].options, a.owners[k].version.value, pods[t])
  }

  /** The reconcile that started on `a` has come to `w` with no failure on the way, and `srv` is what it has made
      of `a`. */
  ghost predicate Unfailing(a: Server, srv: Server, k: Key, w: Worker) {
    match w
    case Idle => srv == a
    case GotMachine(snap) => srv == a && k in a.machines && snap == a.machines[k]
    case GotOwner(snap, osnap) => srv == a && Present(a, k) && snap == a.machines[k] && osnap == a.owners[k]
    case GotCluster(snap, osnap, infra) =>
      && srv == a && Present(a, k) && snap == a.machines[k] && osnap == a.owners[k]
      && osnap.cluster in a.clusters && infra == a.clusters[osnap.cluster]
    case Resolving(l) => Started(a, k, l) && srv == AfterClaim(a, k)
    case Body(pc, l, t) =>
      && Started(a, k, l) && Resolves(a, k, t)
      && (match pc
          case DeletePod => l.snap.deleting && srv == AfterClaim(a, k)
          case DeleteSecret => l.snap.deleting && srv == AfterClaim(a, k).(pods := a.pods - {t})
          case RemoteConfig => !l.snap.deleting && !l.snap.ready && srv == AfterClaim(a, k)
          case ReadCA => !l.snap.deleting && !l.snap.ready && !Gated(a, k) && srv == AfterClaim(a, k)
          case CreateSecret => !l.snap.deleting && !l.snap.ready && !Gated(a, k) && srv == AfterClaim(a, k)
          case CreatePod =>
            && !l.snap.deleting && !l.snap.ready && !Gated(a, k) && !Refused(a, k)
            && SecretMade(a.secrets, srv.secrets, k, t) && srv == AfterClaim(a, k).(secrets := srv.secrets))
    case _ => false
  }

  lemma ResolvesToPlace(srv: Server, k: Key)
    requires Present(srv, k)
    ensures match Place(srv, k, srv.machines[k])
            case Some(t) => Resolves(srv, k, t) && forall u :: Resolves(srv, k, u) ==> u == t
            case None => forall t :: !Resolves(srv, k, t)
  {
    hide TargetOf, LeadsTo;
    forall t ensures Resolves(srv, k, t) <==> Place(srv, k, srv.machines[k]) == Some(t) {
      ResolvesExactly(srv.hosts, k, srv.machines[k].secretRef, t);
    }
  }

  lemma UnfailingRead(a: Server, srv: Server, k: Key, w: Worker, c: Choice)
    requires ChoiceOk(w, c) && Unfailing(a, srv, k, w) && !(Sends(w) && c.outcome.Fault?)
    requires w.Idle? || w.GotMachine? || w.GotOwner? || w.GotCluster?
    ensures var srv', w' := Effect(srv, k, w, c), Continue(srv, k, w, c.outcome);
            if w'.Idle? then srv' == a && !(Present(a, k) && !Blocked(a, k)) && (Fails(srv, k, w, c.outcome) <==> Hopeless(a, k))
            else Main(w') && !Fails(srv, k, w, c.outcome) && Unfailing(a, srv', k, w')
  {
    hide TargetOf, LeadsTo, Overlay, BuildPod;
  }

  lemma UnfailingResolve(a: Server, srv: Server, k: Key, w: Worker, c: Choice)
    requires Unfailing(a, srv, k, w) && w.Resolving? && !(Sends(w) && c.outcome.Fault?)
    ensures var w' := Continue(srv, k, w, c.outcome);
            && ChoiceOk(w, c) && Effect(srv, k, w, c) == srv
            && if Main(w') then !w'.Idle? && !Fails(srv, k, w, c.outcome) && Unfailing(a, srv, k, w')
               else
                 && w' == DeferMeta(w.l) && (Fails(srv, k, w, c.outcome) <==> Hopeless(a, k))
                 && if Fails(srv, k, w, c.outcome) then forall t :: !Resolves(a, k, t)
                    else !a.machines[k].deleting && a.machines[k].ready && exists t :: Resolves(a, k, t)
  {
    hide TargetOf, LeadsTo, Overlay, BuildPod;
    ResolvesToPlace(a, k);
    assert Place(srv, k, w.l.km) == Place(a, k, a.machines[k]);
  }

  lemma UnfailingTeardown(a: Server, srv: Server, k: Key, w: Worker, c: Choice)
    requires ChoiceOk(w, c) && Unfailing(a, srv, k, w) && w.Body? && c.outcome.Fine?
    requires w.pc.DeletePod? || w.pc.DeleteSecret?
    ensures var srv', w' := Effect(srv, k, w, c), Continue(srv, k, w, Fine);
            if Main(w') then !w'.Idle? && !Fails(srv, k, w, Fine) && Unfailing(a, srv', k, w')
            else Fails(srv, k, w, Fine) <==> Hopeless(a, k)
  {
    hide TargetOf, LeadsTo, Overlay, BuildPod, PodAllowed;
    GateAdmits(w.l.osnap.version, w.l.km.options);
  }

  lemma UnfailingGates(a: Server, srv: Server, k: Key, w: Worker, c: Choice)
    requires ChoiceOk(w, c) && Unfailing(a, srv, k, w) && w.Body? && c.outcome.Fine?
    requires w.pc.RemoteConfig? || w.pc.ReadCA?
    ensures var srv', w' := Effect(srv, k, w, c), Continue(srv, k, w, Fine);
            if Main(w') then !w'.Idle? && !Fails(srv, k, w, Fine) && Unfailing(a, srv', k, w')
            else Fails(srv, k, w, Fine) <==> Hopeless(a, k)
  {
    hide TargetOf, LeadsTo, Overlay, BuildPod, PodAllowed;
    GateAdmits(w.l.osnap.version, w.l.km.options);
  }

  lemma UnfailingCreation(a: Server, srv: Server, k: Key, w: Worker, c: Choice)
    requires ChoiceOk(w, c) && Unfailing(a, srv, k, w) && w.Body? && c.outcome.Fine?
    requires w.pc.CreateSecret? || w.pc.CreatePod?
    ensures var srv', w' := Effect(srv, k, w, c), Continue(srv, k, w, Fine);
            if Main(w') then !w'.Idle? && !Fails(srv, k, w, Fine) && Unfailing(a, srv', k, w')
            else Fails(srv, k, w, Fine) <==> Hopeless(a, k)
  {
    hide TargetOf, LeadsTo, Overlay, BuildPod, PodAllowed, Admits;
    GateAdmits(w.l.osnap.version, w.l.km.options);
  }

  // ---------- the answer ----------

  lemma FaultFails(srv: Server, k: Key, w: Worker, o: Outcome)
    requires Sends(w) && o.Fault?
    ensures Fails(srv, k, w, o) && (Continue(srv, k, w, o).Idle? || !Main(Continue(srv, k, w, o)))
  {
  }

  lemma {:induction false} DeferredNeverFails(srv: Server, k: Key, w: Worker, script: seq<Move>)
    requires ScriptOk(srv, k, w, script) && !Main(w)
    ensures !EverFaults(srv, k, w, script) && Answers(srv, k, w, script) in {Died, Done}
    decreases |script|
  {
    hide Effect;
    if script != [] && script[0].Call? {
      GoStep(srv, k, w, script);
      var w' := Continue(srv, k, w, script[0].c.outcome);
      if !w'.Idle? {
        DeferredNeverFails(Effect(srv, k, w, script[0].c), k, w', script[1..]);
      }
    }
  }

  lemma {:induction false} AnswersFrom(a: Server, srv: Server, k: Key, w: Worker, script: seq<Move>)
    requires ScriptOk(srv, k, w, script) && Unfailing(a, srv, k, w) && Main(w)
    requires Answers(srv, k, w, script) != Died
    ensures Answers(srv, k, w, script) == Failed <==> EverFaults(srv, k, w, script) || Hopeless(a, k)
    decreases |script|
  {
    hide Unfailing, Hopeless, Effect, Continue, Fails, Sends;
    var c := script[0].c;
    var w' := Continue(srv, k, w, c.outcome);
    GoStep(srv, k, w, script);
    if Sends(w) && c.outcome.Fault? {
      FaultFails(srv, k, w, c.outcome);
    } else {
      if w.Resolving? {
        UnfailingResolve(a, srv, k, w, c);
      } else if w.Body? {
        assert c.outcome.Fine? by { BodySends(w); }
        if w.pc.CreateSecret? || w.pc.CreatePod? { UnfailingCreation(a, srv, k, w, c); }
        else if w.pc.DeletePod? || w.pc.DeleteSecret? { UnfailingTeardown(a, srv, k, w, c); }
        else { UnfailingGates(a, srv, k, w, c); }
      } else {
        UnfailingRead(a, srv, k, w, c);
      }
      if !w'.Idle? && Main(w') {
        AnswersFrom(a, Effect(srv, k, w, c), k, w', script[1..]);
      } else if !w'.Idle? {
        DeferredNeverFails(Effect(srv, k, w, c), k, w', script[1..]);
      }
    }
  }

  lemma BodySends(w: Worker)
    requires w.Body?
    ensures Sends(w)
  {
  }

  /** A reconcile that does not die returns an error exactly if a call before the deferred patches fails, or it
      had no chance from the start. A missing machine, a missing owner, a Ready machine, missing infrastructure
      and missing bootstrap data all make it return success. */
  lemma AnswersExactly(srv: Server, k: Key, script: seq<Move>)
    requires ScriptOk(srv, k, Idle, script) && Answers(srv, k, Idle, script) != Died
    ensures Answers(srv, k, Idle, script) == Failed <==> EverFaults(srv, k, Idle, script) || Hopeless(srv, k)
  {
    AnswersFrom(srv, srv, k, Idle, script);
  }

  // ---------- what is left when no call fails ----------

  /** The machine of a finished clean-up: gone if only this controller held it; if it had not held it before, it
      does now. */
  function Dismissed(a: Server, k: Key): map<Key, KubemarkMachine>
    requires Present(a, k)
  {
    var m := a.machines[k];
    if m.finalizers == {FINALIZER} then a.machines - {k}
    else if FINALIZER in m.finalizers then a.machines[k := m.(finalizers := m.finalizers - {FINALIZER})]
    else AfterClaim(a, k).machines
  }

  /** `b` is what provisioning leaves. */
  ghost predicate LeavesReady(a: Server, b: Server, k: Key, t: Target)
    requires Present(a, k)
  {
    var id := Some("kubemark://" + k.name);
    && SecretMade(a.secrets, b.secrets, k, t) && PodMade(a, b.pods, k, t)
    && b == a.(machines := a.machines[k := WithFinalizer(a.machines[k]).(providerID := id, ready := true)],
               owners := a.owners[k := a.owners[k].(providerID := id)],
               secrets := b.secrets, pods := b.pods)
  }

  /** `b` is what a reconcile of `k` leaves of `a` if no call fails. */
  ghost predicate Leaves(a: Server, b: Server, k: Key) {
    if !Present(a, k) || Blocked(a, k) then b == a
    else if forall t :: !Resolves(a, k, t) then b == AfterClaim(a, k)
    else
      exists t :: Resolves(a, k, t) && LeavesAt(a, b, k, t)
  }

  ghost predicate LeavesAt(a: Server, b: Server, k: Key, t: Target)
    requires Present(a, k) && !Blocked(a, k)
  {
    if a.machines[k].deleting then
      b == a.(machines := Dismissed(a, k), pods := a.pods - {t}, secrets := a.secrets - {t})
    else if a.machines[k].ready || Gated(a, k) then b == AfterClaim(a, k)
    else if Refused(a, k) then
      SecretMade(a.secrets, b.secrets, k, t) && b == AfterClaim(a, k).(secrets := b.secrets)
    else LeavesReady(a, b, k, t)
  }

  /** The deferred patches of `w` carried out. */
  function Settle(srv: Server, k: Key, w: Worker): Server
    requires w.DeferMachine? || w.DeferMeta?
  {
    var l := w.l;
    var owned := if w.DeferMeta? then srv else srv.(owners := PatchOwner(srv.owners, k, l.osnap, l.owner, Fine));
    var patched := owned.(machines := PatchMeta(owned, k, l.snap, l.km, Fine));
    patched.(machines := PatchStatus(patched.machines, k, l.snap, l.km, Fine))
  }

  lemma SettleStep(srv: Server, k: Key, w: Worker, c: Choice)
    requires (w.DeferMachine? || w.DeferMeta?) && c.outcome.Fine?
    ensures ChoiceOk(w, c)
    ensures var srv', w' := Effect(srv, k, w, c), Continue(srv, k, w, Fine);
            if w.DeferMachine? then w' == DeferMeta(w.l) && Settle(srv, k, w) == Settle(srv', k, w')
            else w' == DeferStatus(w.l) && Settle(srv, k, w) == srv'.(machines := PatchStatus(srv'.machines, k, w.l.snap, w.l.km, Fine))
  {
  }

  lemma {:induction false} DeferredSettle(srv: Server, k: Key, w: Worker, script: seq<Move>)
    requires ScriptOk(srv, k, w, script) && AllFine(script) && |script| >= CallsLeft(w)
    requires w.DeferMachine? || w.DeferMeta?
    ensures Go(srv, k, w, script) == Settle(srv, k, w)
    decreases |script|
  {
    var c := script[0].c;
    GoStep(srv, k, w, script);
    SettleStep(srv, k, w, c);
    var srv', w' := Effect(srv, k, w, c), Continue(srv, k, w, Fine);
    if w.DeferMachine? {
      DeferredSettle(srv', k, w', script[1..]);
    } else {
      GoStep(srv', k, w', script[1..]);
    }
  }

  /** What the closing patch makes of the machine. */
  lemma ReleaseSettles(a: Server, srv: Server, k: Key, l: Local)
    requires Started(a, k, l.(km := WithFinalizer(l.snap))) && l.snap.deleting && srv.machines == AfterClaim(a, k).machines
    requires l.km == WithFinalizer(l.snap).(finalizers := WithFinalizer(l.snap).finalizers - {FINALIZER}) && srv.strict == a.strict
    ensures Settle(srv, k, DeferMeta(l)) == srv.(machines := Dismissed(a, k))
  {
    var f := a.machines[k].finalizers;
    assert f + {FINALIZER} - {FINALIZER} == f - {FINALIZER};
    if FINALIZER in f {
      assert f + {FINALIZER} == f;
      assert f - {FINALIZER} == {} <==> f == {FINALIZER};
    } else {
      assert f - {FINALIZER} == f;
    }
  }

  lemma TeardownLeaves(a: Server, srv: Server, k: Key, w: Worker, c: Choice)
    requires ChoiceOk(w, c) && Unfailing(a, srv, k, w) && w.Body? && w.pc.DeleteSecret? && c.outcome.Fine?
    ensures var w' := Continue(srv, k, w, Fine);
            w'.DeferMeta? && LeavesAt(a, Settle(Effect(srv, k, w, c), k, w'), k, w.target)
  {
    hide TargetOf, LeadsTo, Overlay, BuildPod, PodAllowed, Gated, Refused, Resolves, Settle, Dismissed;
    ReleaseSettles(a, Effect(srv, k, w, c), k, Continue(srv, k, w, Fine).l);
  }

  lemma GatesLeave(a: Server, srv: Server, k: Key, w: Worker, c: Choice)
    requires ChoiceOk(w, c) && Unfailing(a, srv, k, w) && w.Body? && c.outcome.Fine?
    requires !Main(Continue(srv, k, w, Fine)) && (w.pc.RemoteConfig? || w.pc.ReadCA? || w.pc.CreateSecret?)
    ensures var w' := Continue(srv, k, w, Fine);
            w'.DeferMachine? && LeavesAt(a, Settle(Effect(srv, k, w, c), k, w'), k, w.target)
  {
    hide TargetOf, LeadsTo, Overlay, BuildPod, PodAllowed, Admits;
    GateAdmits(w.l.osnap.version, w.l.km.options);
  }

  /** What the deferred patches make of the machine and its owner Machine. */
  lemma PublicationSettles(a: Server, srv: Server, k: Key, l0: Local, l: Local)
    requires Started(a, k, l0) && !l0.snap.deleting && !l0.snap.ready && srv.strict == a.strict
    requires srv.machines == AfterClaim(a, k).machines && srv.owners == a.owners
    requires var id := Some("kubemark://" + k.name);
             l == l0.(km := l0.km.(providerID := id, ready := true), owner := l0.owner.(providerID := id))
    ensures var id := Some("kubemark://" + k.name);
            Settle(srv, k, DeferMachine(l)) ==
            srv.(machines := a.machines[k := WithFinalizer(a.machines[k]).(providerID := id, ready := true)],
                 owners := a.owners[k := a.owners[k].(providerID := id)])
  {
  }

  lemma CreationLeaves(a: Server, srv: Server, k: Key, w: Worker, c: Choice)
    requires ChoiceOk(w, c) && Unfailing(a, srv, k, w) && w.Body? && c.outcome.Fine? && w.pc.CreatePod?
    ensures var w' := Continue(srv, k, w, Fine);
            w'.DeferMachine? && LeavesAt(a, Settle(Effect(srv, k, w, c), k, w'), k, w.target)
  {
    hide TargetOf, Overlay, BuildPod, IsOrder, PodAllowed, IsHollowNode, Dismissed, Blocked, Settle;
    assert w.target.name == k.name && Admits(w.l.osnap.version, w.l.km.options);
    hide Resolves, Admits;
    BuildsHollowNodes(a.image, k, w.target, w.l.km.mounts, w.l.km.options, w.l.osnap.version.value, c.order);
    PublicationSettles(a, Effect(srv, k, w, c), k, w.l, Continue(srv, k, w, Fine).l);
  }

  lemma ResolveLeaves(a: Server, srv: Server, k: Key, w: Worker, c: Choice)
    requires Unfailing(a, srv, k, w) && w.Resolving? && c.outcome.Fine?
    requires !Main(Continue(srv, k, w, Fine))
    ensures Continue(srv, k, w, Fine) == DeferMeta(w.l) && Leaves(a, Settle(srv, k, DeferMeta(w.l)), k)
  {
    hide TargetOf, Overlay, BuildPod, Resolves;
    UnfailingResolve(a, srv, k, w, c);
    assert Settle(srv, k, DeferMeta(w.l)) == AfterClaim(a, k);
    if t :| Resolves(a, k, t) {
      assert LeavesAt(a, AfterClaim(a, k), k, t);
    }
  }

  lemma {:induction false} LeavesFrom(a: Server, srv: Server, k: Key, w: Worker, script: seq<Move>)
    requires ScriptOk(srv, k, w, script) && AllFine(script) && |script| >= CallsLeft(w)
    requires Unfailing(a, srv, k, w) && Main(w)
    ensures Leaves(a, Go(srv, k, w, script), k)
    decreases |script|
  {
    hide Effect, Continue, Fails, Settle, LeavesAt, Resolves;
    var c := script[0].c;
    var srv', w' := Effect(srv, k, w, c), Continue(srv, k, w, c.outcome);
    GoStep(srv, k, w, script);
    RankDecreases(srv, k, w, c.outcome);
    if w.Resolving? {
      UnfailingResolve(a, srv, k, w, c);
      if !Main(w') { ResolveLeaves(a, srv, k, w, c); }
    } else if w.Body? {
      BodyStep(a, srv, k, w, c);
    } else {
      UnfailingRead(a, srv, k, w, c);
    }
    if !w'.Idle? {
      if Main(w') {
        LeavesFrom(a, srv', k, w', script[1..]);
      } else {
        DeferredSettle(srv', k, w', script[1..]);
      }
    }
  }

  lemma BodyStep(a: Server, srv: Server, k: Key, w: Worker, c: Choice)
    requires ChoiceOk(w, c) && Unfailing(a, srv, k, w) && w.Body? && c.outcome.Fine?
    ensures var srv', w' := Effect(srv, k, w, c), Continue(srv, k, w, Fine);
            if Main(w') then !w'.Idle? && Unfailing(a, srv', k, w')
            else (w'.DeferMachine? || w'.DeferMeta?) && Resolves(a, k, w.target) && LeavesAt(a, Settle(srv', k, w'), k, w.target)
  {
    hide Effect, Fails, Settle, LeavesAt, Resolves;
    match w.pc
    case CreatePod => CreationLeaves(a, srv, k, w, c);
    case DeleteSecret => TeardownLeaves(a, srv, k, w, c);
    case DeletePod => UnfailingTeardown(a, srv, k, w, c);
    case CreateSecret =>
      UnfailingCreation(a, srv, k, w, c);
      if !Main(Continue(srv, k, w, Fine)) { GatesLeave(a, srv, k, w, c); }
    case _ =>
      UnfailingGates(a, srv, k, w, c);
      if !Main(Continue(srv, k, w, Fine)) { GatesLeave(a, srv, k, w, c); }
  }

  /** If no call fails, a reconcile leaves just this of the server that it starts on. */
  lemma LeavesExactly(srv: Server, k: Key, script: seq<Move>)
    requires ScriptOk(srv, k, Idle, script) && AllFine(script) && |script| >= CALLS_PER_RECONCILE
    ensures Leaves(srv, Go(srv, k, Idle, script), k)
  {
    LeavesFrom(srv, srv, k, Idle, script);
  }

  // ---------- the calls made, in order ----------

  datatype CallKind =
    | GetMachine | GetOwner | GetCluster | PatchFinalizer | FindTarget
    | GetRemoteConfig | GetClusterCA | MakeSecret | MakePod | RemovePod | RemoveSecret
    | PatchOwnerMachine | PatchSpec | PatchReady

  function KindOf(w: Worker): CallKind {
    match w
    case Idle => GetMachine
    case GotMachine(_) => GetOwner
    case GotOwner(_, _) => GetCluster
    case GotCluster(_, _, _) => PatchFinalizer
    case Resolving(_) => FindTarget
    case Body(pc, _, _) =>
      (match pc
       case RemoteConfig => GetRemoteConfig
       case ReadCA => GetClusterCA
       case CreateSecret => MakeSecret
       case CreatePod => MakePod
       case DeletePod => RemovePod
       case DeleteSecret => RemoveSecret)
    case DeferMachine(_) => PatchOwnerMachine
    case DeferMeta(_) => PatchSpec
    case DeferStatus(_) => PatchReady
  }

  ghost function Calls(srv: Server, k: Key, w: Worker, script: seq<Move>): seq<CallKind>
    requires ScriptOk(srv, k, w, script)
    decreases |script|
  {
    if script == [] || script[0].Die? then []
    else
      var c := script[0].c;
      var w' := Continue(srv, k, w, c.outcome);
      [KindOf(w)] + (if w'.Idle? then [] else Calls(Effect(srv, k, w, c), k, w', script[1..]))
  }

  /** The calls before the deferred patches, if none of them fails. */
  ghost function Planned(a: Server, k: Key): (r: seq<CallKind>)
    ensures |r| >= 1
  {
    if k !in a.machines then [GetMachine]
    else if k !in a.owners then [GetMachine, GetOwner]
    else if a.owners[k].cluster !in a.clusters then [GetMachine, GetOwner, GetCluster]
    else
      var head := [GetMachine, GetOwner, GetCluster, PatchFinalizer];
      var m := a.machines[k];
      if Blocked(a, k) then head
      else if (forall t :: !Resolves(a, k, t)) || (m.ready && !m.deleting) then head + [FindTarget]
      else if m.deleting then head + [FindTarget, RemovePod, RemoveSecret]
      else if Gated(a, k) then head + [FindTarget, GetRemoteConfig]
      else if Refused(a, k) then head + [FindTarget, GetRemoteConfig, GetClusterCA, MakeSecret]
      else head + [FindTarget, GetRemoteConfig, GetClusterCA, MakeSecret, MakePod]
  }

  /** The deferred patches that run once the last of the other calls was `last`, whether it failed or not. */
  function DeferredAfter(last: CallKind): seq<CallKind> {
    if last in {GetMachine, GetOwner, GetCluster, PatchFinalizer} then []
    else if last in {FindTarget, RemovePod, RemoveSecret} then [PatchSpec, PatchReady]
    else [PatchOwnerMachine, PatchSpec, PatchReady]
  }

  function Index(w: Worker): nat
    requires Main(w)
  {
    match w
    case Idle => 0
    case GotMachine(_) => 1
    case GotOwner(_, _) => 2
    case GotCluster(_, _, _) => 3
    case Resolving(_) => 4
    case Body(pc, _, _) =>
      match pc
      case RemoteConfig => 5
      case DeletePod => 5
      case ReadCA => 6
      case DeleteSecret => 6
      case CreateSecret => 7
      case CreatePod => 8
  }

  lemma IsPlanned(a: Server, srv: Server, k: Key, w: Worker)
    requires Unfailing(a, srv, k, w) && Main(w)
    ensures Index(w) < |Planned(a, k)| && Planned(a, k)[Index(w)] == KindOf(w)
  {
    hide LeadsTo;
    if w.Body? {
      assert Resolves(a, k, w.target);
    }
  }

  lemma PlanGoesOn(a: Server, srv: Server, k: Key, w: Worker, c: Choice)
    requires ChoiceOk(w, c) && Unfailing(a, srv, k, w) && Main(w) && !(Sends(w) && c.outcome.Fault?)
    ensures var w' := Continue(srv, k, w, c.outcome);
            if Main(w') && !w'.Idle? then Index(w') == Index(w) + 1
            else Index(w) + 1 == |Planned(a, k)| && DeferredCalls(w') == DeferredAfter(KindOf(w))
  {
    hide LeadsTo, TargetOf, BuildPod, Overlay;
    IsPlanned(a, srv, k, w);
    if w.Resolving? {
      UnfailingResolve(a, srv, k, w, c);
    } else if w.Body? {
      assert Resolves(a, k, w.target);
      GateAdmits(w.l.osnap.version, w.l.km.options);
    }
  }

  function DeferredCalls(w: Worker): seq<CallKind> {
    match w
    case DeferMachine(_) => [PatchOwnerMachine, PatchSpec, PatchReady]
    case DeferMeta(_) => [PatchSpec, PatchReady]
    case DeferStatus(_) => [PatchReady]
    case _ => []
  }

  lemma FaultStopsThePlan(srv: Server, k: Key, w: Worker, o: Outcome)
    requires Sends(w) && o.Fault?
    ensures var w' := Continue(srv, k, w, o);
            (w'.Idle? || !Main(w')) && DeferredCalls(w') == DeferredAfter(KindOf(w))
  {
  }

  lemma {:induction false} CallsDeferred(srv: Server, k: Key, w: Worker, script: seq<Move>)
    requires ScriptOk(srv, k, w, script) && !Main(w) && Answers(srv, k, w, script) != Died
    ensures Calls(srv, k, w, script) == DeferredCalls(w)
    decreases |script|
  {
    hide Effect, ChoiceOk;
    GoStep(srv, k, w, script);
    var w' := Continue(srv, k, w, script[0].c.outcome);
    if !w'.Idle? {
      CallsDeferred(Effect(srv, k, w, script[0].c), k, w', script[1..]);
    }
  }

  lemma CallsStep(srv: Server, k: Key, w: Worker, script: seq<Move>)
    requires ScriptOk(srv, k, w, script) && script != [] && script[0].Call?
    ensures var c := script[0].c;
            ChoiceOk(w, c) &&
            var srv', w' := Effect(srv, k, w, c), Continue(srv, k, w, c.outcome);
            && (!w'.Idle? ==> ScriptOk(srv', k, w', script[1..]))
            && Calls(srv, k, w, script) == [KindOf(w)] + (if w'.Idle? then [] else Calls(srv', k, w', script[1..]))
            && (EverFaults(srv, k, w, script) <==>
                  (Sends(w) && c.outcome.Fault?) || (!w'.Idle? && EverFaults(srv', k, w', script[1..])))
  {
  }

  /** The calls are those of the plan from `i` up to `n`, and the deferred patches then due. */
  predicate Follows(calls: seq<CallKind>, plan: seq<CallKind>, i: nat, n: nat) {
    i < n <= |plan| && calls == plan[i..n] + DeferredAfter(plan[n - 1])
  }

  lemma FollowsOneMore(calls: seq<CallKind>, plan: seq<CallKind>, i: nat, n: nat)
    requires Follows(calls, plan, i + 1, n)
    ensures Follows([plan[i]] + calls, plan, i, n)
  {
    assert plan[i..n] == [plan[i]] + plan[i + 1..n];
  }

  lemma FollowsLast(plan: seq<CallKind>, i: nat)
    requires i < |plan|
    ensures Follows([plan[i]] + DeferredAfter(plan[i]), plan, i, i + 1)
  {
    assert plan[i..i + 1] == [plan[i]];
  }

  lemma {:induction false} CallsFrom(a: Server, srv: Server, k: Key, w: Worker, script: seq<Move>) returns (n: nat)
    requires ScriptOk(srv, k, w, script) && Unfailing(a, srv, k, w) && Main(w)
    requires Answers(srv, k, w, script) != Died
    ensures Follows(Calls(srv, k, w, script), Planned(a, k), Index(w), n)
    ensures n < |Planned(a, k)| ==> EverFaults(srv, k, w, script)
    decreases |script|
  {
    hide Unfailing, Effect, Continue, Fails, Sends, Planned, DeferredAfter, Index, KindOf, Follows;
    var c := script[0].c;
    var srv', w' := Effect(srv, k, w, c), Continue(srv, k, w, c.outcome);
    CallsStep(srv, k, w, script);
    GoStep(srv, k, w, script);
    hide Calls, EverFaults, Go;
    IsPlanned(a, srv, k, w);
    FollowsLast(Planned(a, k), Index(w));
    n := Index(w) + 1;
    if Sends(w) && c.outcome.Fault? {
      FaultStopsThePlan(srv, k, w, c.outcome);
    } else {
      PlanGoesOn(a, srv, k, w, c);
    }
    if w'.Idle? {
      assert DeferredCalls(w') == [];
    } else if Main(w') {
      StaysUnfailing(a, srv, k, w, c);
      n := CallsFrom(a, srv', k, w', script[1..]);
      FollowsOneMore(Calls(srv', k, w', script[1..]), Planned(a, k), Index(w), n);
    } else {
      CallsDeferred(srv', k, w', script[1..]);
    }
  }

  lemma StaysUnfailing(a: Server, srv: Server, k: Key, w: Worker, c: Choice)
    requires ChoiceOk(w, c) && Unfailing(a, srv, k, w) && Main(w) && !(Sends(w) && c.outcome.Fault?)
    requires Main(Continue(srv, k, w, c.outcome)) && !Continue(srv, k, w, c.outcome).Idle?
    ensures Unfailing(a, Effect(srv, k, w, c), k, Continue(srv, k, w, c.outcome))
  {
    hide Effect, Continue, Fails, Unfailing;
    if w.Resolving? {
      UnfailingResolve(a, srv, k, w, c);
    } else if w.Body? {
      assert c.outcome.Fine?;
      BodyStep(a, srv, k, w, c);
    } else {
      UnfailingRead(a, srv, k, w, c);
    }
  }

  /** A reconcile that does not die makes the planned calls in their order, up to the first that fails, and then
      the deferred patches that are due. */
  lemma CallsExactly(srv: Server, k: Key, script: seq<Move>) returns (n: nat)
    requires ScriptOk(srv, k, Idle, script) && Answers(srv, k, Idle, script) != Died
    ensures Follows(Calls(srv, k, Idle, script), Planned(srv, k), 0, n)
    ensures n < |Planned(srv, k)| ==> EverFaults(srv, k, Idle, script)
  {
    n := CallsFrom(srv, srv, k, Idle, script);
  }
}
