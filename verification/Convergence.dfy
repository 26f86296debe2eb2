/** How soon a machine gets Ready, or is cleaned up, when calls fail and workers crash a bounded number of
    times, whatever the other machines do meanwhile. */
module Convergence {
  import opened Common
  import opened KubemarkCluster
  import opened HollowPod
  import opened Protocol
  import opened Safety

  // ---------- steps, faults and finished reconciles of one machine ----------

  /** `acts`: API calls made; `bad`: failed calls and crashes; `finished`: reconciles that came to an end;
      `dirty`: the one in progress has already met a failure. */
  datatype Tally = Tally(acts: nat, bad: nat, finished: nat, dirty: bool)

  function Count(s: State, ev: Event, k: Key, t: Tally): Tally {
    if ev.Act? && ev.k == k then
      var w, o := W(s, k), ev.choice.outcome;
      Tally(t.acts + 1,
            t.bad + (if o.Fine? then 0 else 1),
            t.finished + (if Continue(s.srv, k, w, o).Idle? then 1 else 0),
            (t.dirty && !w.Idle?) || !o.Fine?)
    else if ev.Crash? && ev.k == k then Tally(t.acts, t.bad + 1, t.finished + 1, true)
    else t
  }

  ghost function TallyOf(ss: seq<State>, evs: seq<Event>, k: Key, n: nat): Tally
    requires IsRun(ss, evs) && n <= |evs|
  {
    if n == 0 then Tally(0, 0, 0, false) else Count(ss[n - 1], evs[n - 1], k, TallyOf(ss, evs, k, n - 1))
  }

  const CALLS_PER_RECONCILE := 12

  /** An upper bound on the calls left before the worker is idle again: the measure of a reconcile. */
  function Rank(w: Worker): nat {
    match w
    case Idle => 0
    case GotMachine(_) => 11
    case GotOwner(_, _) => 10
    case GotCluster(_, _, _) => 9
    case Resolving(_) => 8
    case Body(pc, _, _) =>
      (match pc
       case RemoteConfig => 7
       case ReadCA => 6
       case CreateSecret => 5
       case CreatePod => 4
       case DeletePod => 4
       case DeleteSecret => 3)
    case DeferMachine(_) => 3
    case DeferMeta(_) => 2
    case DeferStatus(_) => 1
  }

  lemma RankDecreases(srv: Server, k: Key, w: Worker, o: Outcome)
    ensures !w.Idle? ==> Rank(Continue(srv, k, w, o)) < Rank(w)
    ensures w.Idle? ==> Rank(Continue(srv, k, w, o)) < CALLS_PER_RECONCILE
  {
  }

  function Used(w: Worker): nat {
    if w.Idle? then 0 else CALLS_PER_RECONCILE - Rank(w)
  }

  /** No reconcile makes more than twelve calls. */
  lemma {:induction false} CallsAreBounded(ss: seq<State>, evs: seq<Event>, k: Key, n: nat)
    requires IsRun(ss, evs) && n <= |evs| && W(ss[0], k).Idle?
    ensures TallyOf(ss, evs, k, n).acts <= CALLS_PER_RECONCILE * TallyOf(ss, evs, k, n).finished + Used(W(ss[n], k))
  {
    if n > 0 {
      CallsAreBounded(ss, evs, k, n - 1);
      var ev := evs[n - 1];
      if ev.Act? && ev.k == k {
        RankDecreases(ss[n - 1].srv, k, W(ss[n - 1], k), ev.choice.outcome);
      }
    }
  }

  /** Twelve calls for each failure and twelve more are enough for a reconcile that met none. */
  lemma EnoughCallsSuffice(ss: seq<State>, evs: seq<Event>, k: Key, n: nat)
    requires IsRun(ss, evs) && n <= |evs| && W(ss[0], k).Idle?
    requires TallyOf(ss, evs, k, n).acts >= CALLS_PER_RECONCILE * (TallyOf(ss, evs, k, n).bad + 1)
    ensures TallyOf(ss, evs, k, n).finished > TallyOf(ss, evs, k, n).bad
  {
    CallsAreBounded(ss, evs, k, n);
  }

  // ---------- a quiet window ----------

  /** Nobody but the controller touches machine `k`, its owner Machine or their cluster. */
  predicate Quiet(s: State, ev: Event, k: Key) {
    ev.Env? ==>
      && EventKey(ev.e) != Some(k)
      && (EventKey(ev.e).None? && k in s.srv.owners ==> ev.e.cluster != s.srv.owners[k].cluster)
  }

  /** Everything a reconcile of `k` reads is the same in both servers. */
  predicate SameView(a: Server, b: Server, k: Key) {
    && a.hosts == b.hosts && a.strict == b.strict && a.image == b.image
    && (k in a.machines <==> k in b.machines) && (k in a.machines ==> a.machines[k] == b.machines[k])
    && (k in a.owners <==> k in b.owners) && (k in a.owners ==> a.owners[k] == b.owners[k])
    && (k in a.owners ==>
          var c := a.owners[k].cluster;
          (c in a.clusters <==> c in b.clusters) && (c in a.clusters ==> a.clusters[c] == b.clusters[c]))
  }

  lemma OthersKeepView(s: State, ev: Event, k: Key)
    requires Inv(s) && Enabled(s, ev) && Quiet(s, ev, k)
    requires !(ev.Act? && ev.k == k)
    ensures SameView(s.srv, Next(s, ev).srv, k)
  {
    if ev.Act? {
      assert WorkerInv(s.srv, ev.k, W(s, ev.k));
      WorkerKeepsInv(s.srv, ev.k, W(s, ev.k), ev.choice);
      OthersAreTheSame(s.srv, Next(s, ev).srv, ev.k, k);
    }
  }

  // ---------- provisioning ----------

  /** A reconcile of `k` can go all the way. */
  predicate Fit(srv: Server, k: Key) {
    && k in srv.machines && k in srv.owners
    && var m, o := srv.machines[k], srv.owners[k];
       && !m.deleting && Place(srv, k, m).Some?
       && o.cluster in srv.clusters && srv.clusters[o.cluster]
       && o.bootstrapData && Admits(o.version, m.options)
  }

  predicate GoodSnap(srv: Server, k: Key, snap: KubemarkMachine) {
    && k in srv.machines
    && var m := srv.machines[k];
       !snap.deleting && !snap.ready && snap.options == m.options && snap.mounts == m.mounts && snap.secretRef == m.secretRef
  }

  predicate GoodOwner(srv: Server, k: Key, osnap: Owner) {
    && k in srv.owners
    && var o := srv.owners[k];
       osnap.cluster == o.cluster && osnap.bootstrapData == o.bootstrapData && osnap.version == o.version
  }

  predicate GoodLocal(srv: Server, k: Key, l: Local) {
    GoodSnap(srv, k, l.snap) && GoodOwner(srv, k, l.osnap) && l.infra
  }

  /** The reconcile in progress has met no failure so far. */
  predicate OnTrack(srv: Server, k: Key, w: Worker) {
    match w
    case Idle => true
    case GotMachine(snap) => GoodSnap(srv, k, snap)
    case GotOwner(snap, osnap) => GoodSnap(srv, k, snap) && GoodOwner(srv, k, osnap)
    case GotCluster(snap, osnap, infra) => GoodSnap(srv, k, snap) && GoodOwner(srv, k, osnap) && infra
    case Resolving(l) => GoodLocal(srv, k, l)
    case Body(_, l, _) => GoodLocal(srv, k, l)
    case DeferMachine(l) => l.km.ready && !l.snap.ready
    case DeferMeta(l) => l.km.ready && !l.snap.ready
    case DeferStatus(l) => l.km.ready && !l.snap.ready
  }

  lemma OwnStepKeepsFit(srv: Server, k: Key, w: Worker, c: Choice)
    requires ChoiceOk(w, c) && WorkerInv(srv, k, w) && Fit(srv, k)
    ensures var srv' := Effect(srv, k, w, c);
            Fit(srv', k) && (Ready(srv, k) ==> Ready(srv', k))
  {
  }

  lemma FineStepStaysOnTrack(srv: Server, k: Key, w: Worker, c: Choice)
    requires ChoiceOk(w, c) && WorkerInv(srv, k, w) && Fit(srv, k) && !Ready(srv, k)
    requires OnTrack(srv, k, w) && c.outcome.Fine?
    ensures var srv', w' := Effect(srv, k, w, c), Continue(srv, k, w, c.outcome);
            Ready(srv', k) || (!w'.Idle? && OnTrack(srv', k, w'))
  {
  }

  ghost predicate Provisioning(s: State, k: Key, t: Tally) {
    && Fit(s.srv, k)
    && (|| Ready(s.srv, k)
        || (t.dirty && !W(s, k).Idle? && t.finished < t.bad)
        || (OnTrack(s.srv, k, W(s, k)) && t.finished <= t.bad))
  }

  lemma StepKeepsProvisioning(s: State, ev: Event, k: Key, t: Tally)
    requires Inv(s) && Enabled(s, ev) && Quiet(s, ev, k) && Provisioning(s, k, t)
    ensures Provisioning(Next(s, ev), k, Count(s, ev, k, t))
  {
    hide TargetOf, Effect, WorkerInv;
    assert WorkerInv(s.srv, k, W(s, k));
    if ev.Act? && ev.k == k {
      OwnStepKeepsFit(s.srv, k, W(s, k), ev.choice);
      if !Ready(s.srv, k) && OnTrack(s.srv, k, W(s, k)) && ev.choice.outcome.Fine? {
        FineStepStaysOnTrack(s.srv, k, W(s, k), ev.choice);
      }
    } else {
      OthersKeepView(s, ev, k);
    }
  }

  lemma {:induction false} WindowKeepsProvisioning(ss: seq<State>, evs: seq<Event>, k: Key, n: nat)
    requires IsRun(ss, evs) && Inv(ss[0]) && n <= |evs|
    requires W(ss[0], k).Idle? && Fit(ss[0].srv, k)
    requires forall i :: 0 <= i < n ==> Quiet(ss[i], evs[i], k)
    ensures Provisioning(ss[n], k, TallyOf(ss, evs, k, n))
  {
    if n > 0 {
      WindowKeepsProvisioning(ss, evs, k, n - 1);
      RunKeepsInv(ss, evs, n - 1);
      StepKeepsProvisioning(ss[n - 1], evs[n - 1], k, TallyOf(ss, evs, k, n - 1));
    }
  }

  lemma ReadyStays(s: State, ev: Event, k: Key)
    requires Inv(s) && Enabled(s, ev) && Ready(s.srv, k) && k in Next(s, ev).srv.machines
    ensures Ready(Next(s, ev).srv, k)
  {
    assert WorkerInv(s.srv, k, W(s, k));
    if ev.Act? && ev.k != k {
      OthersKeepView(s, ev, k);
    }
  }

  lemma {:induction false} ReadyForLife(ss: seq<State>, evs: seq<Event>, k: Key, n: nat, m: nat)
    requires IsRun(ss, evs) && Inv(ss[0]) && n <= m <= |evs|
    requires Ready(ss[n].srv, k) && forall i :: n <= i <= m ==> k in ss[i].srv.machines
    ensures Ready(ss[m].srv, k)
  {
    hide Inv, Enabled, Ready;
    if n < m {
      ReadyForLife(ss, evs, k, n, m - 1);
      RunKeepsInv(ss, evs, m - 1);
      assert ss[m] == Next(ss[m - 1], evs[m - 1]);
      ReadyStays(ss[m - 1], evs[m - 1], k);
    }
  }

  /** From any reachable partial state, with any interleaving of other machines: once more reconciles of `k`
      have ended than calls have failed or workers crashed, it is Ready; and it stays so for as long as it
      exists, whatever happens after the window. */
  lemma {:induction false} BecomesReady(ss: seq<State>, evs: seq<Event>, k: Key, n: nat, m: nat)
    requires IsRun(ss, evs) && Inv(ss[0]) && n <= m <= |evs|
    requires W(ss[0], k).Idle? && Fit(ss[0].srv, k)
    requires forall i :: 0 <= i < n ==> Quiet(ss[i], evs[i], k)
    requires TallyOf(ss, evs, k, n).finished > TallyOf(ss, evs, k, n).bad
    requires forall i :: n < i <= m ==> k in ss[i].srv.machines
    ensures Ready(ss[m].srv, k)
  {
    hide Next, Enabled, Inv, Fit, OnTrack;
    WindowKeepsProvisioning(ss, evs, k, n);
    ReadyForLife(ss, evs, k, n, m);
  }

  // ---------- clean-up ----------

  /** A reconcile of `k` can clean up: deletion is requested, and the finalizer is there from before. */
  predicate Doomed(srv: Server, k: Key) {
    && k in srv.machines && k in srv.owners
    && var m, o := srv.machines[k], srv.owners[k];
       m.deleting && Claimed(m) && Place(srv, k, m).Some? && o.cluster in srv.clusters
  }

  predicate Released(srv: Server, k: Key) {
    k in srv.machines ==> !Claimed(srv.machines[k])
  }

  /** The finalizer is off, on a server that will not take it back. */
  predicate Gone(srv: Server, k: Key) {
    srv.strict && (k in srv.machines ==> srv.machines[k].deleting && !Claimed(srv.machines[k]))
  }

  predicate DoomedSnap(srv: Server, k: Key, snap: KubemarkMachine) {
    && k in srv.machines
    && snap.deleting && Claimed(snap) && snap.finalizers == srv.machines[k].finalizers
    && snap.secretRef == srv.machines[k].secretRef
  }

  predicate DoomedOwner(srv: Server, k: Key, osnap: Owner) {
    k in srv.owners && osnap.cluster == srv.owners[k].cluster
  }

  /** The clean-up in progress has met no failure so far. */
  predicate OnWayOut(srv: Server, k: Key, w: Worker) {
    match w
    case Idle => true
    case GotMachine(snap) => DoomedSnap(srv, k, snap)
    case GotOwner(snap, osnap) => DoomedSnap(srv, k, snap) && DoomedOwner(srv, k, osnap)
    case GotCluster(snap, osnap, _) => DoomedSnap(srv, k, snap) && DoomedOwner(srv, k, osnap)
    case Resolving(l) => DoomedSnap(srv, k, l.snap)
    case Body(_, l, _) => DoomedSnap(srv, k, l.snap)
    case DeferMachine(_) => false
    case DeferMeta(l) => DoomedSnap(srv, k, l.snap) && l.km == Release(Claim(l.snap))
    case DeferStatus(_) => false
  }

  lemma OwnStepKeepsDoomed(srv: Server, k: Key, w: Worker, c: Choice)
    requires ChoiceOk(w, c) && WorkerInv(srv, k, w) && Doomed(srv, k)
    ensures var srv' := Effect(srv, k, w, c);
            Doomed(srv', k) || (Released(srv', k) && (srv.strict ==> Gone(srv', k)))
  {
  }

  lemma FineStepStaysOnWayOut(srv: Server, k: Key, w: Worker, c: Choice)
    requires ChoiceOk(w, c) && WorkerInv(srv, k, w) && Doomed(srv, k)
    requires OnWayOut(srv, k, w) && c.outcome.Fine?
    ensures var srv', w' := Effect(srv, k, w, c), Continue(srv, k, w, c.outcome);
            if w.DeferMeta? then Released(srv', k) && w' == DeferStatus(w.l) && w.l.km.ready == w.l.snap.ready
            else Doomed(srv', k) && !w'.Idle? && OnWayOut(srv', k, w')
  {
  }

  ghost predicate CleaningUp(s: State, k: Key, t: Tally) {
    && Doomed(s.srv, k)
    && (|| (t.dirty && !W(s, k).Idle? && t.finished < t.bad)
        || (OnWayOut(s.srv, k, W(s, k)) && t.finished <= t.bad))
  }

  lemma StepKeepsCleaningUp(s: State, ev: Event, k: Key, t: Tally)
    requires Inv(s) && Enabled(s, ev) && Quiet(s, ev, k) && CleaningUp(s, k, t)
    ensures var s' := Next(s, ev);
            || CleaningUp(s', k, Count(s, ev, k, t))
            || (Released(s'.srv, k) && (s.srv.strict ==> Gone(s'.srv, k)))
  {
    assert WorkerInv(s.srv, k, W(s, k));
    if ev.Act? && ev.k == k {
      OwnStepKeepsDoomed(s.srv, k, W(s, k), ev.choice);
      if OnWayOut(s.srv, k, W(s, k)) && ev.choice.outcome.Fine? {
        FineStepStaysOnWayOut(s.srv, k, W(s, k), ev.choice);
      }
    } else {
      OthersKeepView(s, ev, k);
    }
  }

  /** Either the clean-up is still going on, or the finalizer was off at some step. */
  lemma {:induction false} WindowKeepsCleaningUp(ss: seq<State>, evs: seq<Event>, k: Key, n: nat) returns (i: nat)
    requires IsRun(ss, evs) && Inv(ss[0]) && n <= |evs|
    requires W(ss[0], k).Idle? && Doomed(ss[0].srv, k)
    requires forall i :: 0 <= i < n ==> Quiet(ss[i], evs[i], k)
    ensures i <= n && ss[n].srv.strict == ss[0].srv.strict
    ensures || CleaningUp(ss[n], k, TallyOf(ss, evs, k, n))
            || (Released(ss[i].srv, k) && (ss[0].srv.strict ==> Gone(ss[i].srv, k)))
  {
    i := n;
    if n > 0 {
      var j := WindowKeepsCleaningUp(ss, evs, k, n - 1);
      RunKeepsInv(ss, evs, n - 1);
      if CleaningUp(ss[n - 1], k, TallyOf(ss, evs, k, n - 1)) {
        StepKeepsCleaningUp(ss[n - 1], evs[n - 1], k, TallyOf(ss, evs, k, n - 1));
      } else {
        i := j;
      }
    }
  }

  /** The event makes a new machine of that key. */
  predicate Recreates(ev: Event, k: Key) {
    ev.Env? && ev.e.CreateMachine? && ev.e.k == k
  }

  lemma GoneStaysGone(s: State, ev: Event, k: Key)
    requires Inv(s) && Enabled(s, ev) && Gone(s.srv, k) && !Recreates(ev, k)
    ensures Gone(Next(s, ev).srv, k)
  {
    assert WorkerInv(s.srv, k, W(s, k));
    if ev.Act? && ev.k != k {
      OthersKeepView(s, ev, k);
    }
  }

  lemma {:induction false} GoneForGood(ss: seq<State>, evs: seq<Event>, k: Key, n: nat, m: nat)
    requires IsRun(ss, evs) && Inv(ss[0]) && n <= m <= |evs| && Gone(ss[n].srv, k)
    requires forall i :: n <= i < m ==> !Recreates(evs[i], k)
    ensures Gone(ss[m].srv, k)
  {
    hide Inv, Enabled, Gone, Next;
    if n < m {
      GoneForGood(ss, evs, k, n, m - 1);
      RunKeepsInv(ss, evs, m - 1);
      GoneStaysGone(ss[m - 1], evs[m - 1], k);
    }
  }

  /** The finalizer is off and no Pod or Secret made for the machine is left anywhere. */
  ghost predicate CleanedUp(srv: Server, k: Key) {
    Released(srv, k) && NoPodOf(srv, k) && NoSecretOf(srv, k)
  }

  /** With the same bound, a machine under deletion has been cleaned up at some step `i` of the window. On a
      server that refuses new finalizers during deletion it stays so, whatever happens, until someone makes a
      new machine of that name. */
  lemma {:induction false} BecomesClean(ss: seq<State>, evs: seq<Event>, k: Key, n: nat) returns (i: nat)
    requires IsRun(ss, evs) && Inv(ss[0]) && n <= |evs|
    requires W(ss[0], k).Idle? && Doomed(ss[0].srv, k)
    requires forall i :: 0 <= i < n ==> Quiet(ss[i], evs[i], k)
    requires TallyOf(ss, evs, k, n).finished > TallyOf(ss, evs, k, n).bad
    ensures i <= n && CleanedUp(ss[i].srv, k)
    ensures ss[0].srv.strict ==>
              forall m :: i <= m <= |evs| && (forall j :: i <= j < m ==> !Recreates(evs[j], k)) ==> CleanedUp(ss[m].srv, k)
  {
    hide Next, Enabled, ServerInv, Doomed, OnWayOut;
    i := WindowKeepsCleaningUp(ss, evs, k, n);
    RunKeepsInv(ss, evs, i);
    UnclaimedOwnsNothing(ss[i].srv, k);
    if ss[0].srv.strict {
      forall m | i <= m <= |evs| && (forall j :: i <= j < m ==> !Recreates(evs[j], k))
        ensures CleanedUp(ss[m].srv, k)
      {
        GoneForGood(ss, evs, k, i, m);
        RunKeepsInv(ss, evs, m);
        UnclaimedOwnsNothing(ss[m].srv, k);
      }
    }
  }
}
