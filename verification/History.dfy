/** What a Pod on the server tells about the past of a run. */
module History {
  import opened Common
  import opened ExtendedResources
  import opened KubemarkCluster
  import opened HollowPod
  import opened Protocol
  import opened Safety

  // ---------- contents are written once ----------

  lemma StepWritesOnce(s: State, ev: Event, t: Target)
    requires Enabled(s, ev)
    ensures t in s.srv.pods && t in Next(s, ev).srv.pods ==> Next(s, ev).srv.pods[t] == s.srv.pods[t]
    ensures t in s.srv.secrets && t in Next(s, ev).srv.secrets ==> Next(s, ev).srv.secrets[t] == s.srv.secrets[t]
  {
  }

  /** Whatever is edited meanwhile, the contents of a Pod do not change while it exists. */
  lemma {:induction false} PodsAreWrittenOnce(ss: seq<State>, evs: seq<Event>, i: nat, j: nat, t: Target)
    requires IsRun(ss, evs) && i <= j <= |evs|
    requires forall n :: i <= n <= j ==> t in ss[n].srv.pods
    ensures ss[j].srv.pods[t] == ss[i].srv.pods[t]
  {
    if i < j {
      PodsAreWrittenOnce(ss, evs, i, j - 1, t);
      StepWritesOnce(ss[j - 1], evs[j - 1], t);
    }
  }

  lemma {:induction false} SecretsAreWrittenOnce(ss: seq<State>, evs: seq<Event>, i: nat, j: nat, t: Target)
    requires IsRun(ss, evs) && i <= j <= |evs|
    requires forall n :: i <= n <= j ==> t in ss[n].srv.secrets
    ensures ss[j].srv.secrets[t] == ss[i].srv.secrets[t]
  {
    if i < j {
      SecretsAreWrittenOnce(ss, evs, i, j - 1, t);
      StepWritesOnce(ss[j - 1], evs[j - 1], t);
    }
  }

  // ---------- snapshots are past server states ----------

  ghost predicate MachineWas(ss: seq<State>, i: nat, k: Key, m: KubemarkMachine)
    requires i < |ss|
  {
    exists j :: 0 <= j <= i && k in ss[j].srv.machines && ss[j].srv.machines[k] == m
  }

  ghost predicate OwnerWas(ss: seq<State>, i: nat, k: Key, o: Owner)
    requires i < |ss|
  {
    exists j :: 0 <= j <= i && k in ss[j].srv.owners && ss[j].srv.owners[k] == o
  }

  ghost predicate ClusterWas(ss: seq<State>, i: nat, cluster: string, ready: bool)
    requires i < |ss|
  {
    exists j :: 0 <= j <= i && cluster in ss[j].srv.clusters && ss[j].srv.clusters[cluster] == ready
  }

  ghost predicate LocalWas(ss: seq<State>, i: nat, k: Key, l: Local)
    requires i < |ss|
  {
    MachineWas(ss, i, k, l.snap) && OwnerWas(ss, i, k, l.osnap) && ClusterWas(ss, i, l.osnap.cluster, l.infra)
  }

  ghost predicate WorkerWas(ss: seq<State>, i: nat, k: Key, w: Worker)
    requires i < |ss|
  {
    match w
    case Idle => true
    case GotMachine(snap) => MachineWas(ss, i, k, snap)
    case GotOwner(snap, osnap) => MachineWas(ss, i, k, snap) && OwnerWas(ss, i, k, osnap)
    case GotCluster(snap, osnap, infra) =>
      MachineWas(ss, i, k, snap) && OwnerWas(ss, i, k, osnap) && ClusterWas(ss, i, osnap.cluster, infra)
    case Resolving(l) => LocalWas(ss, i, k, l)
    case Body(_, l, _) => LocalWas(ss, i, k, l)
    case DeferMachine(l) => LocalWas(ss, i, k, l)
    case DeferMeta(l) => LocalWas(ss, i, k, l)
    case DeferStatus(l) => LocalWas(ss, i, k, l)
  }

  lemma ThePastStays(ss: seq<State>, i: nat, k: Key, w: Worker)
    requires i + 1 < |ss| && WorkerWas(ss, i, k, w)
    ensures WorkerWas(ss, i + 1, k, w)
  {
  }

  lemma ReadsArePast(ss: seq<State>, i: nat, k: Key, w: Worker, o: Outcome)
    requires i < |ss| && WorkerWas(ss, i, k, w)
    ensures WorkerWas(ss, i, k, Continue(ss[i].srv, k, w, o))
  {
  }

  lemma NextWorker(s: State, ev: Event, k: Key)
    requires Enabled(s, ev)
    ensures W(Next(s, ev), k) == if ev.Act? && ev.k == k then Continue(s.srv, k, W(s, k), ev.choice.outcome)
                                 else if ev.Crash? && ev.k == k then Idle
                                 else W(s, k)
  {
  }

  lemma IdleReadNothing(ss: seq<State>, i: nat, k: Key)
    requires i < |ss|
    ensures WorkerWas(ss, i, k, Idle)
  {
  }

  lemma {:induction false} WorkersReadThePast(ss: seq<State>, evs: seq<Event>, i: nat, k: Key)
    requires IsRun(ss, evs) && Init(ss[0]) && i <= |evs|
    ensures WorkerWas(ss, i, k, W(ss[i], k))
  {
    hide Next, Enabled, Continue, WorkerWas;
    if i == 0 {
      IdleReadNothing(ss, 0, k);
    } else {
      WorkersReadThePast(ss, evs, i - 1, k);
      var ev := evs[i - 1];
      NextWorker(ss[i - 1], ev, k);
      if ev.Act? && ev.k == k {
        ReadsArePast(ss, i - 1, k, W(ss[i - 1], k), ev.choice.outcome);
      }
      IdleReadNothing(ss, i - 1, k);
      ThePastStays(ss, i - 1, k, W(ss[i], k));
    }
  }

  // ---------- every pod was created from such snapshots ----------

  /** `pod` is what event `c` of the run asked the server to create at `t`. */
  ghost predicate CreatedBy(ss: seq<State>, evs: seq<Event>, c: int, t: Target, pod: Pod)
    requires IsRun(ss, evs)
  {
    && 0 <= c < |evs| && evs[c].Act?
    && var k, w := evs[c].k, W(ss[c], evs[c].k);
       && w.Body? && w.pc.CreatePod? && w.target == t
       && ChoiceOk(w, evs[c].choice)
       && pod == PodOf(ss[c].srv.image, k, w, evs[c].choice.order)
  }

  lemma {:induction false} PodsWereCreated(ss: seq<State>, evs: seq<Event>, i: nat, t: Target) returns (c: nat)
    requires IsRun(ss, evs) && Init(ss[0]) && i <= |evs|
    requires t in ss[i].srv.pods
    ensures c < i && CreatedBy(ss, evs, c, t, ss[i].srv.pods[t])
  {
    assert i > 0;
    if t in ss[i - 1].srv.pods {
      StepWritesOnce(ss[i - 1], evs[i - 1], t);
      c := PodsWereCreated(ss, evs, i - 1, t);
    } else {
      c := i - 1;
    }
  }

  lemma {:induction false} ImageIsFixed(ss: seq<State>, evs: seq<Event>, i: nat)
    requires IsRun(ss, evs) && i <= |evs|
    ensures ss[i].srv.image == ss[0].srv.image && ss[i].srv.hosts == ss[0].srv.hosts
  {
    if i > 0 {
      ImageIsFixed(ss, evs, i - 1);
    }
  }

  /** Every Pod of every reachable state was built from the machine and owner Machine as they once stood on
      the server, with bootstrap data set, the cluster infrastructure once seen ready, and a version that
      allows the options. */
  lemma PodFidelity(ss: seq<State>, evs: seq<Event>, i: nat, t: Target)
    returns (k: Key, m: KubemarkMachine, o: Owner, order: seq<string>)
    requires IsRun(ss, evs) && Init(ss[0]) && i <= |evs|
    requires t in ss[i].srv.pods
    ensures MachineWas(ss, i, k, m) && !m.deleting && Place(ss[i].srv, k, m) == Some(t)
    ensures OwnerWas(ss, i, k, o) && o.bootstrapData && ClusterWas(ss, i, o.cluster, true)
    ensures Admits(o.version, m.options) && IsOrder(order, Overlay(m.options))
    ensures ss[i].srv.pods[t] == BuildPod(ss[0].srv.image, k, t, m.mounts, m.options, o.version.value, order)
  {
    var c := PodsWereCreated(ss, evs, i, t);
    k, order := evs[c].k, evs[c].choice.order;
    var w := W(ss[c], k);
    InitInv(ss[0]);
    RunKeepsInv(ss, evs, c);
    assert WorkerInv(ss[c].srv, k, w);
    WorkersReadThePast(ss, evs, c, k);
    ImageIsFixed(ss, evs, c);
    ImageIsFixed(ss, evs, i);
    m, o := w.l.snap, w.l.osnap;
  }

  /** The flag on such a Pod is there exactly when the version passed the gate, and parses back to the overlay
      of the options it was made from, exactly if they are free of separators. */
  lemma PodFlagTellsTheOptions(ss: seq<State>, evs: seq<Event>, i: nat, t: Target)
    returns (k: Key, m: KubemarkMachine, o: Owner, order: seq<string>)
    requires IsRun(ss, evs) && Init(ss[0]) && i <= |evs|
    requires t in ss[i].srv.pods
    ensures MachineWas(ss, i, k, m) && OwnerWas(ss, i, k, o) && Admits(o.version, m.options)
    ensures ss[i].srv.pods[t].owner == k && IsOrder(order, Overlay(m.options))
    ensures ss[i].srv.pods[t] == BuildPod(ss[0].srv.image, k, t, m.mounts, m.options, o.version.value, order)
    ensures |ss[i].srv.pods[t].containers| == 1
    ensures var args := ss[i].srv.pods[t].containers[0].args;
            && (HasResourcesFlag(args) <==> o.version.value.check.Supported?)
            && (HasResourcesFlag(args) ==>
                  (ParseFlag(args[|args| - 1]) == Ok(Some(Texts(Overlay(m.options)))) <==>
                     (m.options.Some? ==> Clean(m.options.value))))
  {
    k, m, o, order := PodFidelity(ss, evs, i, t);
    ArgsCarryTheOverlay(k.name, o.version.value.check, m.options, order);
  }

  /** Field by field, every Pod of every reachable state is a hollow node named and fed as its target says, with
      the image, arguments and mounts of a machine and an owner Machine that once stood there. */
  lemma EveryPodIsAHollowNode(ss: seq<State>, evs: seq<Event>, i: nat, t: Target)
    returns (m: KubemarkMachine, o: Owner)
    requires IsRun(ss, evs) && Init(ss[0]) && i <= |evs|
    requires t in ss[i].srv.pods
    ensures var pod := ss[i].srv.pods[t];
            && pod.owner.name == t.name && MachineWas(ss, i, pod.owner, m) && OwnerWas(ss, i, pod.owner, o)
            && Admits(o.version, m.options)
            && IsHollowNode(ss[0].srv.image, t, m.mounts, m.options, o.version.value, pod)
  {
    hide IsHollowNode, BuildPod, IsOrder, Overlay;
    var k, order;
    k, m, o, order := PodFidelity(ss, evs, i, t);
    BuildsHollowNodes(ss[0].srv.image, k, t, m.mounts, m.options, o.version.value, order);
  }

  /** Every Secret of every reachable state holds the bytes that one of its owner's calls sent to that target. */
  lemma {:induction false} SecretsWereCreated(ss: seq<State>, evs: seq<Event>, i: nat, t: Target) returns (c: nat)
    requires IsRun(ss, evs) && Init(ss[0]) && i <= |evs|
    requires t in ss[i].srv.secrets
    ensures c < i && evs[c].Act? && W(ss[c], evs[c].k).Body? && W(ss[c], evs[c].k).target == t
    ensures ss[i].srv.secrets[t] == Secret(evs[c].k, evs[c].choice.bytes)
  {
    assert i > 0;
    if t in ss[i - 1].srv.secrets {
      StepWritesOnce(ss[i - 1], evs[i - 1], t);
      c := SecretsWereCreated(ss, evs, i - 1, t);
    } else {
      c := i - 1;
    }
  }
}
