/** Whatever the failures on the way, a provisioned machine ends in one server state, exactly if no reconcile
    turned Ready on after losing a provider ID; and so does one that is cleaned up. */
module EndState {
  import opened Common
  import opened ExtendedResources
  import opened KubemarkCluster
  import opened HollowPod
  import opened Protocol
  import opened Safety
  import opened Isolation
  import opened Publication
  import opened Convergence

  /** The machine that provisioning turns `m` into. */
  function Provisioned(k: Key, m: KubemarkMachine): KubemarkMachine {
    Claim(m).(providerID := Some("kubemark://" + k.name), ready := true)
  }

  /** `b` has what provisioning `k` in `a` should leave. */
  predicate EndsPublished(a: Server, b: Server, k: Key)
    requires k in a.machines && k in a.owners && k in b.machines && k in b.owners
  {
    && b.machines[k] == Provisioned(k, a.machines[k])
    && b.owners[k] == a.owners[k].(providerID := Some("kubemark://" + k.name))
  }

  /** A Pod for `m` and `o`, whatever the order in which the options were listed. */
  ghost predicate IsPodFor(image: string, k: Key, t: Target, m: KubemarkMachine, o: Owner, pod: Pod) {
    && o.version.Some?
    && exists order :: IsOrder(order, Overlay(m.options)) &&
                       pod == BuildPod(image, k, t, m.mounts, m.options, o.version.value, order)
  }

  // ---------- how far the window can drift from its start `a` ----------

  predicate NearMachine(m0: KubemarkMachine, m: KubemarkMachine) {
    && m == m0.(finalizers := m.finalizers, providerID := m.providerID, ready := m.ready)
    && (m.finalizers == m0.finalizers || m.finalizers == m0.finalizers + {MACHINE_FINALIZER})
  }

  predicate NearOwner(o0: Owner, o: Owner) {
    o == o0.(providerID := o.providerID)
  }

  predicate NearServer(a: Server, srv: Server, k: Key) {
    && srv.hosts == a.hosts && srv.image == a.image
    && k in a.machines && k in srv.machines && NearMachine(a.machines[k], srv.machines[k])
    && k in a.owners && k in srv.owners && NearOwner(a.owners[k], srv.owners[k])
  }

  predicate NearLocal(m0: KubemarkMachine, o0: Owner, l: Local) {
    NearMachine(m0, l.snap) && NearOwner(o0, l.osnap)
  }

  predicate NearWorker(m0: KubemarkMachine, o0: Owner, w: Worker) {
    match w
    case Idle => true
    case GotMachine(snap) => NearMachine(m0, snap)
    case GotOwner(snap, osnap) => NearMachine(m0, snap) && NearOwner(o0, osnap)
    case GotCluster(snap, osnap, _) => NearMachine(m0, snap) && NearOwner(o0, osnap)
    case Resolving(l) => NearLocal(m0, o0, l)
    case Body(_, l, _) => NearLocal(m0, o0, l)
    case DeferMachine(l) => NearLocal(m0, o0, l)
    case DeferMeta(l) => NearLocal(m0, o0, l)
    case DeferStatus(l) => NearLocal(m0, o0, l)
  }

  ghost predicate NearPod(a: Server, srv: Server, k: Key, t: Target)
    requires k in a.machines && k in a.owners
  {
    && (t in a.pods ==> t in srv.pods && srv.pods[t] == a.pods[t])
    && (t !in a.pods && t in srv.pods ==> IsPodFor(a.image, k, t, a.machines[k], a.owners[k], srv.pods[t]))
  }

  /** The Secret that was there is still there, and a new one was made for `k`. */
  predicate NearSecret(a: Server, srv: Server, k: Key, t: Target) {
    && (t in a.secrets ==> t in srv.secrets && srv.secrets[t] == a.secrets[t])
    && (t !in a.secrets && t in srv.secrets ==> srv.secrets[t].owner == k)
  }

  ghost predicate Near(a: Server, s: State, k: Key, t: Target) {
    && NearServer(a, s.srv, k)
    && !a.machines[k].deleting && Place(a, k, a.machines[k]) == Some(t)
    && NearWorker(a.machines[k], a.owners[k], W(s, k))
    && NearPod(a, s.srv, k, t) && NearSecret(a, s.srv, k, t)
  }

  lemma OwnStepStaysNear(a: Server, s: State, k: Key, c: Choice, t: Target)
    requires Inv(s) && Enabled(s, Act(k, c)) && Near(a, s, k, t)
    ensures NearServer(a, Next(s, Act(k, c)).srv, k)
    ensures NearWorker(a.machines[k], a.owners[k], W(Next(s, Act(k, c)), k))
  {
    hide TargetOf, BuildPod, Overlay;
    assert WorkerInv(s.srv, k, W(s, k));
  }

  lemma OwnStepKeepsSecretNear(a: Server, s: State, k: Key, c: Choice, t: Target)
    requires Inv(s) && Enabled(s, Act(k, c)) && Near(a, s, k, t)
    ensures NearSecret(a, Next(s, Act(k, c)).srv, k, t)
  {
    hide BuildPod, Overlay;
    assert WorkerInv(s.srv, k, W(s, k));
  }

  lemma OwnStepKeepsPodNear(a: Server, s: State, k: Key, c: Choice, t: Target)
    requires Inv(s) && Enabled(s, Act(k, c)) && Near(a, s, k, t)
    ensures NearPod(a, Next(s, Act(k, c)).srv, k, t)
  {
    var w := W(s, k);
    assert WorkerInv(s.srv, k, w);
    if w.Body? {
      assert w.target == t;
      if w.pc.CreatePod? && t !in s.srv.pods {
        var pod := PodOf(s.srv.image, k, w, c.order);
        assert IsOrder(c.order, Overlay(a.machines[k].options));
        assert pod == BuildPod(a.image, k, t, a.machines[k].mounts, a.machines[k].options,
                               a.owners[k].version.value, c.order);
        assert IsPodFor(a.image, k, t, a.machines[k], a.owners[k], pod);
      }
    }
  }

  lemma StepStaysNear(a: Server, s: State, ev: Event, k: Key, t: Target)
    requires Inv(s) && Distinct(s.srv) && Enabled(s, ev) && Quiet(s, ev, k) && Near(a, s, k, t)
    ensures Near(a, Next(s, ev), k, t)
  {
    if ev.Act? && ev.k == k {
      OwnStepStaysNear(a, s, k, ev.choice, t);
      OwnStepKeepsPodNear(a, s, k, ev.choice, t);
      OwnStepKeepsSecretNear(a, s, k, ev.choice, t);
    } else {
      OthersKeepView(s, ev, k);
      if ev.Act? {
        NonInterference(s, ev, k);
      }
    }
  }

  lemma {:induction false} WindowStaysNear(ss: seq<State>, evs: seq<Event>, k: Key, t: Target, n: nat)
    requires IsRun(ss, evs) && Inv(ss[0]) && n <= |evs|
    requires W(ss[0], k).Idle? && Fit(ss[0].srv, k) && Place(ss[0].srv, k, ss[0].srv.machines[k]) == Some(t)
    requires forall i :: 0 <= i < n ==> Quiet(ss[i], evs[i], k) && Distinct(ss[i].srv)
    ensures Near(ss[0].srv, ss[n], k, t)
  {
    if n > 0 {
      WindowStaysNear(ss, evs, k, t, n - 1);
      RunKeepsInv(ss, evs, n - 1);
      StepStaysNear(ss[0].srv, ss[n - 1], evs[n - 1], k, t);
    }
  }

  lemma EndsTrustedExactly(ss: seq<State>, evs: seq<Event>, k: Key, t: Target, n: nat)
    requires IsRun(ss, evs) && Inv(ss[0]) && TrustedMachine(ss[0].srv, k) && n <= |evs|
    requires W(ss[0], k).Idle? && Fit(ss[0].srv, k) && Place(ss[0].srv, k, ss[0].srv.machines[k]) == Some(t)
    requires forall i :: 0 <= i < n ==> Quiet(ss[i], evs[i], k) && Distinct(ss[i].srv)
    ensures TrustedMachine(ss[n].srv, k) <==> forall i :: 0 <= i < n ==> !PublishesAmiss(ss, evs, k, i)
  {
    hide Next, Enabled, Inv, Distinct, PublishesAmiss, Fit, Quiet;
    forall i: nat | i <= n ensures k in ss[i].srv.machines { WindowStaysNear(ss, evs, k, t, i); }
    ReadyIsTrustedExactly(ss, evs, k, n);
    if i :| 0 <= i <= n && Mistaken(ss[i].srv, k) {
      MistakesAreNeverRepaired(ss, evs, k, i, n);
    }
  }

  /** Once Ready, Secret, Pod and everything but the provider IDs are what the start of the window determines,
      up to the listing order in the flag; and so are the provider IDs, exactly if Ready was never turned on in a
      reconcile that had lost one of them. */
  lemma EndStateIsDetermined(ss: seq<State>, evs: seq<Event>, k: Key, n: nat)
    requires IsRun(ss, evs) && Inv(ss[0]) && OrderInv(ss[0]) && TrustedMachine(ss[0].srv, k) && n <= |evs|
    requires W(ss[0], k).Idle? && Fit(ss[0].srv, k)
    requires forall i :: 0 <= i < n ==> Quiet(ss[i], evs[i], k) && Distinct(ss[i].srv)
    requires Ready(ss[n].srv, k)
    ensures var a, b := ss[0].srv, ss[n].srv;
            && b.machines[k].(providerID := None) == Provisioned(k, a.machines[k]).(providerID := None)
            && k in b.owners && b.owners[k].(providerID := None) == a.owners[k].(providerID := None)
            && var t := Place(a, k, a.machines[k]).value;
               && t in b.secrets && t in b.pods
               && (if t in a.secrets then b.secrets[t] == a.secrets[t] else b.secrets[t].owner == k)
               && (if t in a.pods then b.pods[t] == a.pods[t]
                   else IsPodFor(a.image, k, t, a.machines[k], a.owners[k], b.pods[t]))
    ensures EndsPublished(ss[0].srv, ss[n].srv, k) <==> forall i :: 0 <= i < n ==> !PublishesAmiss(ss, evs, k, i)
  {
    hide Next, Enabled, Distinct, WorkerInv, PublishesAmiss, TargetOf, BuildPod, IsOrder, NearWorker, WorkerOrder;
    var t := Place(ss[0].srv, k, ss[0].srv.machines[k]).value;
    WindowStaysNear(ss, evs, k, t, n);
    RunKeepsInv(ss, evs, n);
    RunKeepsOrder(ss, evs, n);
    assert MachineOrder(ss[n].srv, k);
    EndsTrustedExactly(ss, evs, k, t, n);
  }

  /** The Pods differ at most in the order in which the flag lists the resources. */
  ghost predicate SameUpToOrder(p: Pod, q: Pod) {
    && p.(containers := []) == q.(containers := [])
    && |p.containers| == |q.containers| == 1
    && var c, d := p.containers[0], q.containers[0];
       && c.(args := []) == d.(args := [])
       && |c.args| == |d.args| >= 3 && c.args[..3] == d.args[..3]
       && (|c.args| == 4 ==> ParseFlag(c.args[3]) == ParseFlag(d.args[3]) && ParseFlag(c.args[3]).Ok?)
       && |c.args| <= 4
  }

  lemma PodsForTheSameAgree(image: string, k: Key, t: Target, m: KubemarkMachine, o: Owner, p: Pod, q: Pod)
    requires IsPodFor(image, k, t, m, o, p) && IsPodFor(image, k, t, m, o, q)
    requires m.options.Some? ==> Clean(m.options.value)
    ensures SameUpToOrder(p, q)
  {
    hide ParseFlag, Texts, Overlay, Flag, Clean, IsOrder, HasResourcesFlag, AllVolumes, AllVolumeMounts;
    var a :| IsOrder(a, Overlay(m.options)) && p == BuildPod(image, k, t, m.mounts, m.options, o.version.value, a);
    var b :| IsOrder(b, Overlay(m.options)) && q == BuildPod(image, k, t, m.mounts, m.options, o.version.value, b);
    ArgsCarryTheOverlay(k.name, o.version.value.check, m.options, a);
    ArgsCarryTheOverlay(k.name, o.version.value.check, m.options, b);
  }

  /** A window of a run, undisturbed by edits, after which `k` is Ready. */
  ghost predicate ReadyWindow(ss: seq<State>, evs: seq<Event>, k: Key) {
    && IsRun(ss, evs)
    && (forall i :: 0 <= i < |evs| ==> Quiet(ss[i], evs[i], k) && Distinct(ss[i].srv))
    && Ready(ss[|evs|].srv, k)
  }

  /** In which Ready was never turned on by a reconcile that had lost a provider ID. */
  ghost predicate NeverAmiss(ss: seq<State>, evs: seq<Event>, k: Key)
    requires IsRun(ss, evs)
  {
    forall i :: 0 <= i < |evs| ==> !PublishesAmiss(ss, evs, k, i)
  }

  /** Two runs from one state, with whatever failures, crashes and other machines' doings on the way, leave the
      same machine and owner Machine but for provider IDs and, up to the listing order in the flag, the same
      Pod; provider IDs agree too if neither run published amiss, and differ if just one did. */
  lemma EndStatesAgree(ss1: seq<State>, evs1: seq<Event>, ss2: seq<State>, evs2: seq<Event>, k: Key, t: Target)
    requires ReadyWindow(ss1, evs1, k) && ReadyWindow(ss2, evs2, k) && ss1[0] == ss2[0]
    requires Inv(ss1[0]) && OrderInv(ss1[0]) && TrustedMachine(ss1[0].srv, k)
    requires W(ss1[0], k).Idle? && Fit(ss1[0].srv, k) && Place(ss1[0].srv, k, ss1[0].srv.machines[k]) == Some(t)
    requires ss1[0].srv.machines[k].options.Some? ==> Clean(ss1[0].srv.machines[k].options.value)
    ensures var a, b := ss1[|evs1|].srv, ss2[|evs2|].srv;
            && a.machines[k].(providerID := None) == b.machines[k].(providerID := None)
            && k in a.owners && k in b.owners
            && a.owners[k].(providerID := None) == b.owners[k].(providerID := None)
            && t in a.secrets && t in b.secrets && a.secrets[t].owner == b.secrets[t].owner
            && (t in ss1[0].srv.secrets ==> a.secrets[t] == b.secrets[t])
            && t in a.pods && t in b.pods
            && (if t in ss1[0].srv.pods then a.pods[t] == b.pods[t] else SameUpToOrder(a.pods[t], b.pods[t]))
            && (NeverAmiss(ss1, evs1, k) ==>
                  (NeverAmiss(ss2, evs2, k) <==> a.machines[k] == b.machines[k] && a.owners[k] == b.owners[k]))
  {
    hide PublishesAmiss, Distinct, Quiet, Inv, Next, Enabled, OrderInv;
    EndStateIsDetermined(ss1, evs1, k, |evs1|);
    EndStateIsDetermined(ss2, evs2, k, |evs2|);
    var s := ss1[0].srv;
    if t !in s.pods {
      PodsForTheSameAgree(s.image, k, t, s.machines[k], s.owners[k], ss1[|evs1|].srv.pods[t], ss2[|evs2|].srv.pods[t]);
    }
  }

  // ---------- the end of a clean-up ----------

  /** The machine as it was, or with the finalizer taken off. */
  predicate Remains(m0: KubemarkMachine, m: KubemarkMachine) {
    m == m0 || m == Release(m0)
  }

  predicate LeavingWorker(m0: KubemarkMachine, w: Worker) {
    match w
    case Idle => true
    case GotMachine(snap) => Remains(m0, snap)
    case GotOwner(snap, _) => Remains(m0, snap)
    case GotCluster(snap, _, _) => Remains(m0, snap)
    case Resolving(l) => Remains(m0, l.snap)
    case Body(_, l, _) => Remains(m0, l.snap)
    case DeferMachine(l) => Remains(m0, l.snap)
    case DeferMeta(l) => Remains(m0, l.snap)
    case DeferStatus(l) => Remains(m0, l.snap)
  }

  predicate Leaving(a: Server, srv: Server, k: Key) {
    && k in a.machines && k in a.owners
    && var m0 := a.machines[k];
       && m0.deleting && Claimed(m0)
       && (if k in srv.machines then Remains(m0, srv.machines[k]) && srv.machines[k].finalizers != {}
           else m0.finalizers == {MACHINE_FINALIZER})
       && k in srv.owners && srv.owners[k] == a.owners[k]
  }

  lemma OwnStepKeepsLeaving(a: Server, srv: Server, k: Key, w: Worker, c: Choice)
    requires ChoiceOk(w, c) && WorkerInv(srv, k, w)
    requires Leaving(a, srv, k) && LeavingWorker(a.machines[k], w)
    ensures Leaving(a, Effect(srv, k, w, c), k)
    ensures LeavingWorker(a.machines[k], Continue(srv, k, w, c.outcome))
  {
    hide TargetOf, BuildPod, Overlay;
  }

  lemma {:induction false} WindowKeepsLeaving(ss: seq<State>, evs: seq<Event>, k: Key, n: nat)
    requires IsRun(ss, evs) && Inv(ss[0]) && n <= |evs|
    requires W(ss[0], k).Idle? && Doomed(ss[0].srv, k)
    requires forall i :: 0 <= i < n ==> Quiet(ss[i], evs[i], k)
    ensures Leaving(ss[0].srv, ss[n].srv, k) && LeavingWorker(ss[0].srv.machines[k], W(ss[n], k))
  {
    hide ServerInv;
    if n > 0 {
      WindowKeepsLeaving(ss, evs, k, n - 1);
      RunKeepsInv(ss, evs, n - 1);
      var s, ev := ss[n - 1], evs[n - 1];
      assert WorkerInv(s.srv, k, W(s, k));
      if ev.Act? && ev.k == k {
        OwnStepKeepsLeaving(ss[0].srv, s.srv, k, W(s, k), ev.choice);
      } else {
        OthersKeepView(s, ev, k);
      }
    }
  }

  /** What a clean-up of `k` that began at `a` leaves: nothing made for the machine, its owner Machine untouched,
      and the machine itself only if others hold it, and then with just the finalizer taken off. */
  ghost predicate LeftClean(a: Server, b: Server, k: Key)
    requires k in a.machines && k in a.owners
  {
    && NoPodOf(b, k) && NoSecretOf(b, k)
    && k in b.owners && b.owners[k] == a.owners[k]
    && if a.machines[k].finalizers == {MACHINE_FINALIZER} then k !in b.machines
       else k in b.machines && b.machines[k] == Release(a.machines[k])
  }

  /** Whenever in the window the finalizer is off, the server is left as the start of the window determines. */
  lemma CleanEndIsDetermined(ss: seq<State>, evs: seq<Event>, k: Key, n: nat)
    requires IsRun(ss, evs) && Inv(ss[0]) && n <= |evs|
    requires W(ss[0], k).Idle? && Doomed(ss[0].srv, k)
    requires forall i :: 0 <= i < n ==> Quiet(ss[i], evs[i], k)
    requires Released(ss[n].srv, k)
    ensures LeftClean(ss[0].srv, ss[n].srv, k)
  {
    hide Next, Enabled, WorkerInv;
    WindowKeepsLeaving(ss, evs, k, n);
    RunKeepsInv(ss, evs, n);
    UnclaimedOwnsNothing(ss[n].srv, k);
  }

  /** So however a clean-up goes in which more reconciles end than calls fail or workers crash, it passes through
      that one end, and on servers that refuse new finalizers during deletion it stops there. */
  lemma CleanUpsEndAlike(ss: seq<State>, evs: seq<Event>, k: Key, n: nat) returns (i: nat)
    requires IsRun(ss, evs) && Inv(ss[0]) && n <= |evs|
    requires W(ss[0], k).Idle? && Doomed(ss[0].srv, k)
    requires forall i :: 0 <= i < n ==> Quiet(ss[i], evs[i], k)
    requires TallyOf(ss, evs, k, n).finished > TallyOf(ss, evs, k, n).bad
    ensures i <= n && LeftClean(ss[0].srv, ss[i].srv, k)
    ensures ss[0].srv.strict ==> forall m :: i <= m <= n ==> LeftClean(ss[0].srv, ss[m].srv, k)
  {
    hide Next, Enabled, Inv, LeftClean, TallyOf;
    i := BecomesClean(ss, evs, k, n);
    CleanEndIsDetermined(ss, evs, k, i);
    if ss[0].srv.strict {
      forall m | i <= m <= n ensures LeftClean(ss[0].srv, ss[m].srv, k) {
        CleanEndIsDetermined(ss, evs, k, m);
      }
    }
  }
}
