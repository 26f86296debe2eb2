/** Interleaved machines do not disturb each other, and Pods never outlive their Secrets, as long as no two
    machines share a target. */
module Isolation {
  import opened Common
  import opened ExtendedResources
  import opened KubemarkCluster
  import opened HollowPod
  import opened Protocol
  import opened Safety

  /** No two machines share a target. */
  ghost predicate Distinct(srv: Server) {
    forall k1, k2 :: k1 in srv.machines && k2 in srv.machines && k1 != k2 && Place(srv, k1, srv.machines[k1]).Some? ==>
      Place(srv, k1, srv.machines[k1]) != Place(srv, k2, srv.machines[k2])
  }

  /** When no machine names an external cluster, unique keys make the targets distinct. */
  lemma LocalMachinesAreDistinct(srv: Server)
    requires forall k :: k in srv.machines ==> srv.machines[k].secretRef.None?
    ensures Distinct(srv)
  {
    forall k1, k2 | k1 in srv.machines && k2 in srv.machines && k1 != k2
      ensures Place(srv, k1, srv.machines[k1]) != Place(srv, k2, srv.machines[k2])
    {
      TargetsCollideExactly(srv.hosts, k1, None, k2, None);
    }
  }

  // ---------- non-interference ----------

  /** Both servers hold the same at target `u`. */
  predicate SameAt(a: Server, b: Server, u: Target) {
    && (u in a.pods <==> u in b.pods) && (u in a.pods ==> a.pods[u] == b.pods[u])
    && (u in a.secrets <==> u in b.secrets) && (u in a.secrets ==> a.secrets[u] == b.secrets[u])
  }

  /** A worker touches no Pod or Secret away from its own machine's target. */
  lemma TouchesOwnTargetOnly(srv: Server, k: Key, w: Worker, c: Choice, u: Target)
    requires ChoiceOk(w, c) && WorkerInv(srv, k, w)
    requires k in srv.machines ==> Place(srv, k, srv.machines[k]) != Some(u)
    ensures SameAt(srv, Effect(srv, k, w, c), u)
  {
    if w.Body? {
      assert w.target != u;
    }
  }

  /** With distinct targets, no step or crash of machine `k`'s worker changes machine `j`, its owner Machine,
      its worker, or the Pod and Secret at its target. */
  lemma NonInterference(s: State, ev: Event, j: Key)
    requires Inv(s) && Distinct(s.srv) && Enabled(s, ev)
    requires (ev.Act? || ev.Crash?) && ev.k != j
    ensures var s' := Next(s, ev);
            && (j in s.srv.machines <==> j in s'.srv.machines)
            && (j in s.srv.machines ==> s.srv.machines[j] == s'.srv.machines[j])
            && (j in s.srv.owners <==> j in s'.srv.owners)
            && (j in s.srv.owners ==> s.srv.owners[j] == s'.srv.owners[j])
            && W(s, j) == W(s', j)
    ensures j in s.srv.machines && Place(s.srv, j, s.srv.machines[j]).Some? ==>
              SameAt(s.srv, Next(s, ev).srv, Place(s.srv, j, s.srv.machines[j]).value)
  {
    if ev.Act? {
      assert WorkerInv(s.srv, ev.k, W(s, ev.k));
      WorkerKeepsInv(s.srv, ev.k, W(s, ev.k), ev.choice);
      OthersAreTheSame(s.srv, Next(s, ev).srv, ev.k, j);
      if j in s.srv.machines && Place(s.srv, j, s.srv.machines[j]).Some? {
        TouchesOwnTargetOnly(s.srv, ev.k, W(s, ev.k), ev.choice, Place(s.srv, j, s.srv.machines[j]).value);
      }
    }
  }

  /** Everything the server and the controller hold about machine `j`. */
  ghost predicate Undisturbed(a: State, b: State, j: Key) {
    && j in a.srv.machines && j in b.srv.machines && a.srv.machines[j] == b.srv.machines[j]
    && (j in a.srv.owners <==> j in b.srv.owners) && (j in a.srv.owners ==> a.srv.owners[j] == b.srv.owners[j])
    && W(a, j) == W(b, j) && a.srv.hosts == b.srv.hosts
    && var t := Place(a.srv, j, a.srv.machines[j]);
       t.Some? ==> SameAt(a.srv, b.srv, t.value)
  }

  /** Over any stretch of steps and crashes of other machines' workers, with targets distinct throughout,
      nothing about machine `j` changes. */
  lemma {:induction false} OthersNeverInterfere(ss: seq<State>, evs: seq<Event>, j: Key, n: nat)
    requires IsRun(ss, evs) && Inv(ss[0]) && n <= |evs| && j in ss[0].srv.machines
    requires forall i :: 0 <= i < n ==> (evs[i].Act? || evs[i].Crash?) && evs[i].k != j && Distinct(ss[i].srv)
    ensures Undisturbed(ss[0], ss[n], j)
  {
    if n > 0 {
      OthersNeverInterfere(ss, evs, j, n - 1);
      RunKeepsInv(ss, evs, n - 1);
      NonInterference(ss[n - 1], evs[n - 1], j);
    }
  }

  // ---------- dependency order ----------

  predicate Both(srv: Server, t: Option<Target>) {
    t.Some? && t.value in srv.pods && t.value in srv.secrets
  }

  predicate WorkerOrder(srv: Server, k: Key, w: Worker) {
    match w
    case Body(pc, l, t) => (pc.CreatePod? ==> t in srv.secrets) && (pc.DeleteSecret? ==> t !in srv.pods)
    case DeferMachine(l) => l.km.ready ==> Both(srv, Place(srv, k, l.snap))
    case DeferMeta(l) => l.km.ready && !l.snap.ready ==> Both(srv, Place(srv, k, l.snap))
    case DeferStatus(l) => l.km.ready && !l.snap.ready ==> Both(srv, Place(srv, k, l.snap))
    case _ => true
  }

  predicate MachineOrder(srv: Server, k: Key) {
    k in srv.machines && srv.machines[k].ready && !srv.machines[k].deleting ==>
      Both(srv, Place(srv, k, srv.machines[k]))
  }

  ghost predicate PodsHaveSecrets(srv: Server) {
    forall t :: t in srv.pods ==> t in srv.secrets
  }

  ghost predicate OrderInv(s: State) {
    && PodsHaveSecrets(s.srv)
    && (forall k :: MachineOrder(s.srv, k))
    && (forall k :: WorkerOrder(s.srv, k, W(s, k)))
  }

  lemma OwnStepKeepsOrder(srv: Server, k: Key, w: Worker, c: Choice)
    requires ChoiceOk(w, c) && WorkerInv(srv, k, w)
    requires PodsHaveSecrets(srv) && WorkerOrder(srv, k, w)
    ensures var srv' := Effect(srv, k, w, c);
            PodsHaveSecrets(srv') && WorkerOrder(srv', k, Continue(srv, k, w, c.outcome))
  {
    hide BuildPod, Overlay, TargetOf;
    if w.Body? {
      assert Place(srv, k, w.l.snap) == Some(w.target);
    }
  }

  lemma OwnStepKeepsMachine(srv: Server, k: Key, w: Worker, c: Choice)
    requires ChoiceOk(w, c) && WorkerInv(srv, k, w)
    requires MachineOrder(srv, k) && WorkerOrder(srv, k, w)
    ensures MachineOrder(Effect(srv, k, w, c), k)
  {
  }

  /** Another machine's step leaves `j`'s part of the order alone. */
  lemma OthersKeepOrder(s: State, k: Key, c: Choice, j: Key)
    requires Inv(s) && Distinct(s.srv) && Enabled(s, Act(k, c)) && j != k
    requires MachineOrder(s.srv, j) && WorkerOrder(s.srv, j, W(s, j))
    ensures var s' := Next(s, Act(k, c));
            MachineOrder(s'.srv, j) && WorkerOrder(s'.srv, j, W(s', j))
  {
    var w := W(s, j);
    assert WorkerInv(s.srv, j, w);
    NonInterference(s, Act(k, c), j);
    assert Next(s, Act(k, c)).srv.hosts == s.srv.hosts;
  }

  lemma EnvKeepsOrder(s: State, e: EnvEvent, j: Key)
    requires Inv(s) && EnvEnabled(s, e)
    requires MachineOrder(s.srv, j) && WorkerOrder(s.srv, j, W(s, j))
    ensures MachineOrder(EnvStep(s.srv, e), j) && WorkerOrder(EnvStep(s.srv, e), j, W(s, j))
  {
  }

  lemma StepKeepsOrder(s: State, ev: Event)
    requires Inv(s) && Distinct(s.srv) && OrderInv(s) && Enabled(s, ev)
    ensures OrderInv(Next(s, ev))
  {
    var s' := Next(s, ev);
    match ev
    case Act(k, c) =>
      assert WorkerInv(s.srv, k, W(s, k)) && MachineOrder(s.srv, k) && WorkerOrder(s.srv, k, W(s, k));
      OwnStepKeepsOrder(s.srv, k, W(s, k), c);
      OwnStepKeepsMachine(s.srv, k, W(s, k), c);
      forall j ensures MachineOrder(s'.srv, j) && WorkerOrder(s'.srv, j, W(s', j)) {
        if j != k { OthersKeepOrder(s, k, c, j); }
      }
    case Crash(k) =>
      forall j ensures MachineOrder(s'.srv, j) && WorkerOrder(s'.srv, j, W(s', j)) {
        assert MachineOrder(s.srv, j) && WorkerOrder(s.srv, j, W(s, j));
      }
    case Env(e) =>
      forall j ensures MachineOrder(s'.srv, j) && WorkerOrder(s'.srv, j, W(s', j)) {
        assert MachineOrder(s.srv, j) && WorkerOrder(s.srv, j, W(s, j));
        EnvKeepsOrder(s, e, j);
      }
  }

  lemma {:induction false} RunKeepsOrder(ss: seq<State>, evs: seq<Event>, i: nat)
    requires IsRun(ss, evs) && Inv(ss[0]) && OrderInv(ss[0]) && i <= |evs|
    requires forall n :: 0 <= n < i ==> Distinct(ss[n].srv)
    ensures OrderInv(ss[i])
  {
    if i > 0 {
      RunKeepsOrder(ss, evs, i - 1);
      RunKeepsInv(ss, evs, i - 1);
      StepKeepsOrder(ss[i - 1], evs[i - 1]);
    }
  }

  /** In every reachable state a Pod has its Secret beside it, and a Ready machine that is not being deleted
      has both. */
  lemma DependencyOrder(ss: seq<State>, evs: seq<Event>, i: nat)
    requires IsRun(ss, evs) && Init(ss[0]) && i <= |evs|
    requires forall n :: 0 <= n < i ==> Distinct(ss[n].srv)
    ensures forall t :: t in ss[i].srv.pods ==> t in ss[i].srv.secrets
    ensures forall k :: k in ss[i].srv.machines && ss[i].srv.machines[k].ready && !ss[i].srv.machines[k].deleting ==>
              Both(ss[i].srv, Place(ss[i].srv, k, ss[i].srv.machines[k]))
  {
    InitInv(ss[0]);
    assert OrderInv(ss[0]);
    RunKeepsOrder(ss, evs, i);
    forall k | k in ss[i].srv.machines && ss[i].srv.machines[k].ready && !ss[i].srv.machines[k].deleting
      ensures Both(ss[i].srv, Place(ss[i].srv, k, ss[i].srv.machines[k]))
    {
      assert MachineOrder(ss[i].srv, k);
    }
  }
}
