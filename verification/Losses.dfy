/** What a single reconcile can lose and not make up for, and what its success means. */
module Losses {
  import opened ExtendedResources
  import opened KubemarkCluster
  import opened HollowPod
  import opened Protocol
  import opened Safety
  import opened Publication
  import opened Convergence
  import opened Drive

  // ---------- a lost provider ID is never made up for ----------

  datatype DeferredPatch = OwnerPatch | MachinePatch | StatusPatch

  predicate AtPatch(w: Worker, lost: DeferredPatch) {
    match lost
    case OwnerPatch => w.DeferMachine?
    case MachinePatch => w.DeferMeta?
    case StatusPatch => w.DeferStatus?
  }

  /** The reply that loses this patch and nothing else. */
  function Losing(w: Worker, lost: DeferredPatch, order: seq<string>): Choice {
    Choice(if AtPatch(w, lost) then Fault(false) else Fine, 0, order)
  }

  /** Of owner's provider ID, own provider ID and Ready just the one is missing. */
  predicate PublishedBut(srv: Server, k: Key, lost: DeferredPatch) {
    && (OwnerPublished(srv, k) <==> lost != OwnerPatch)
    && (MachinePublished(srv, k) <==> lost != MachinePatch)
    && (Ready(srv, k) <==> lost != StatusPatch)
  }

  /** What will be lost is not published yet; the rest is, once its patch has been sent. */
  predicate LosesOnly(srv: Server, k: Key, w: Worker, lost: DeferredPatch) {
    && (lost.OwnerPatch? ==> !OwnerPublished(srv, k))
    && (lost.MachinePatch? ==> !MachinePublished(srv, k))
    && ((w.DeferMeta? || w.DeferStatus?) && !lost.OwnerPatch? ==> OwnerPublished(srv, k))
    && (w.DeferStatus? && !lost.MachinePatch? ==> MachinePublished(srv, k))
  }

  lemma LosingDeferred(srv: Server, k: Key, w: Worker, lost: DeferredPatch, order: seq<string>)
    requires ServerInv(srv) && WorkerInv(srv, k, w) && Fit(srv, k) && !Ready(srv, k) && OnTrack(srv, k, w)
    requires IsOrder(order, Overlay(srv.machines[k].options)) && LosesOnly(srv, k, w, lost)
    requires w.DeferMachine? || w.DeferMeta? || w.DeferStatus?
    ensures var c := Losing(w, lost, order);
            && ChoiceOk(w, c)
            && var srv', w' := Effect(srv, k, w, c), Continue(srv, k, w, c.outcome);
               && Fit(srv', k) && srv'.machines[k].options == srv.machines[k].options
               && !Fails(srv, k, w, c.outcome)
               && if w.DeferStatus? then w'.Idle? && PublishedBut(srv', k, lost)
                  else !Ready(srv', k) && OnTrack(srv', k, w') && !w'.Idle? && LosesOnly(srv', k, w', lost)
  {
    hide BuildPod, ServerInv, TargetOf, Overlay;
  }

  lemma LosingStep(srv: Server, k: Key, w: Worker, lost: DeferredPatch, order: seq<string>)
    requires ServerInv(srv) && WorkerInv(srv, k, w) && Fit(srv, k) && !Ready(srv, k) && OnTrack(srv, k, w)
    requires IsOrder(order, Overlay(srv.machines[k].options)) && LosesOnly(srv, k, w, lost)
    ensures var c := Losing(w, lost, order);
            && ChoiceOk(w, c)
            && var srv', w' := Effect(srv, k, w, c), Continue(srv, k, w, c.outcome);
               && Fit(srv', k) && srv'.machines[k].options == srv.machines[k].options
               && !Fails(srv, k, w, c.outcome)
               && if w.DeferStatus? then w'.Idle? && PublishedBut(srv', k, lost)
                  else !Ready(srv', k) && OnTrack(srv', k, w') && !w'.Idle? && LosesOnly(srv', k, w', lost)
  {
    hide BuildPod, ServerInv, TargetOf, Overlay;
    if w.DeferMachine? || w.DeferMeta? || w.DeferStatus? {
      LosingDeferred(srv, k, w, lost, order);
    } else {
      OwnStepKeepsFit(srv, k, w, Losing(w, lost, order));
      FineStepStaysOnTrack(srv, k, w, Losing(w, lost, order));
    }
  }

  lemma {:induction false} LosePatch(srv: Server, k: Key, w: Worker, lost: DeferredPatch, order: seq<string>)
    returns (script: seq<Move>)
    requires ServerInv(srv) && WorkerInv(srv, k, w) && Fit(srv, k) && !Ready(srv, k) && OnTrack(srv, k, w)
    requires IsOrder(order, Overlay(srv.machines[k].options)) && LosesOnly(srv, k, w, lost)
    ensures ScriptOk(srv, k, w, script)
    ensures var after := Go(srv, k, w, script);
            Fit(after, k) && PublishedBut(after, k, lost) && Answers(srv, k, w, script) == Done
    decreases CallsLeft(w)
  {
    hide OnTrack, ServerInv, WorkerInv, ChoiceOk, LosesOnly, PublishedBut;
    var c := Losing(w, lost, order);
    LosingStep(srv, k, w, lost, order);
    WorkerKeepsInv(srv, k, w, c);
    RankDecreases(srv, k, w, c.outcome);
    if w.DeferStatus? {
      script := [Call(c)];
    } else {
      var rest := LosePatch(Effect(srv, k, w, c), k, Continue(srv, k, w, c.outcome), lost, order);
      script := [Call(c)] + rest;
      assert script[1..] == rest;
    }
  }

  /** From every state where provisioning can succeed, losing just the deferred patch of the owner Machine, or
      just that of metadata and spec, leaves the machine Ready with that one provider ID unpublished, and no
      later reconcile of it changes anything. */
  lemma LostPatchIsNeverRepaired(srv: Server, k: Key, lost: DeferredPatch) returns (script: seq<Move>)
    requires ServerInv(srv) && Fit(srv, k) && !Ready(srv, k) && !lost.StatusPatch?
    requires if lost.OwnerPatch? then !OwnerPublished(srv, k) else !MachinePublished(srv, k)
    ensures ScriptOk(srv, k, Idle, script)
    ensures var after := Go(srv, k, Idle, script);
            && Fit(after, k) && PublishedBut(after, k, lost)
            && forall later :: ScriptOk(after, k, Idle, later) ==> Go(after, k, Idle, later) == after
  {
    var order := SomeOrder(Overlay(srv.machines[k].options));
    script := LosePatch(srv, k, Idle, lost, order);
    var after := Go(srv, k, Idle, script);
    GoKeepsInv(srv, k, Idle, script);
    forall later | ScriptOk(after, k, Idle, later)
      ensures Go(after, k, Idle, later) == after
    {
      ReadyIsAFixpoint(after, k, later);
    }
  }

  /** Losing just the status patch leaves a machine that could be Ready and is not, while the reconcile reports
      success and so asks for no retry. */
  lemma LostStatusIsNotRetried(srv: Server, k: Key) returns (script: seq<Move>)
    requires ServerInv(srv) && Fit(srv, k) && !Ready(srv, k)
    ensures ScriptOk(srv, k, Idle, script) && Answers(srv, k, Idle, script) == Done
    ensures var after := Go(srv, k, Idle, script);
            Fit(after, k) && PublishedBut(after, k, StatusPatch)
  {
    var order := SomeOrder(Overlay(srv.machines[k].options));
    script := LosePatch(srv, k, Idle, StatusPatch, order);
  }

  // ---------- a reconcile that adds the finalizer cannot take it off ----------

  /** Under deletion and held by the finalizer. */
  predicate Stuck(srv: Server, k: Key) {
    k in srv.machines && k in srv.owners && srv.machines[k].deleting && Claimed(srv.machines[k])
  }

  predicate Adding(srv: Server, k: Key, w: Worker) {
    && Stuck(srv, k)
    && match w
       case Resolving(l) => l.snap.deleting && !Claimed(l.snap)
       case Body(_, l, _) => l.snap.deleting && !Claimed(l.snap)
       case DeferMeta(l) => l.snap.deleting && !Claimed(l.snap)
       case DeferStatus(l) => l.km.ready == l.snap.ready
       case _ => false
  }

  lemma AddingStep(srv: Server, k: Key, w: Worker, c: Choice)
    requires ChoiceOk(w, c) && WorkerInv(srv, k, w) && Adding(srv, k, w)
    ensures var srv', w' := Effect(srv, k, w, c), Continue(srv, k, w, c.outcome);
            Stuck(srv', k) && (w'.Idle? || Adding(srv', k, w'))
  {
    hide TargetOf, BuildPod, Overlay;
    if w.DeferMeta? {
      assert w.l.km == Claim(w.l.snap) || w.l.km == w.l.snap;
    }
  }

  lemma {:induction false} AddingEndsStuck(srv: Server, k: Key, w: Worker, script: seq<Move>)
    requires ScriptOk(srv, k, w, script) && ServerInv(srv) && WorkerInv(srv, k, w) && Adding(srv, k, w)
    ensures Stuck(Go(srv, k, w, script), k)
    decreases |script|
  {
    hide ServerInv, WorkerInv, Adding, Effect, Continue, ChoiceOk;
    if script != [] && script[0].Call? {
      AddingStep(srv, k, w, script[0].c);
      WorkerKeepsInv(srv, k, w, script[0].c);
      var w' := Continue(srv, k, w, script[0].c.outcome);
      if !w'.Idle? {
        AddingEndsStuck(Effect(srv, k, w, script[0].c), k, w', script[1..]);
      }
    } else {
      assert Stuck(srv, k) by { AddingIsStuck(srv, k, w); }
    }
  }

  lemma AddingIsStuck(srv: Server, k: Key, w: Worker)
    requires Adding(srv, k, w)
    ensures Stuck(srv, k)
  {
  }

  /** The worker is on its way to the first patch, which will add the finalizer to a machine under deletion; all
      lookups done from `srv`. */
  predicate AboutToAdd(srv: Server, k: Key, w: Worker) {
    && DeletedUnclaimed(srv, k)
    && match w
       case Idle => true
       case GotMachine(snap) => snap == srv.machines[k]
       case GotOwner(snap, osnap) => snap == srv.machines[k] && osnap == srv.owners[k]
       case GotCluster(snap, _, _) => snap == srv.machines[k]
       case _ => false
  }

  lemma AboutToAddStep(srv: Server, k: Key, w: Worker, c: Choice)
    requires ChoiceOk(w, c) && WorkerInv(srv, k, w) && AboutToAdd(srv, k, w) && !Fails(srv, k, w, c.outcome)
    ensures var srv', w' := Effect(srv, k, w, c), Continue(srv, k, w, c.outcome);
            if w.GotCluster? then Adding(srv', k, w') else srv' == srv && !w'.Idle? && AboutToAdd(srv, k, w')
  {
  }

  /** No call fails that would end the reconcile: it reports success, or it is free of faults on a server that
      takes the finalizer. */
  ghost predicate GetsThrough(srv: Server, k: Key, w: Worker, script: seq<Move>)
    requires ScriptOk(srv, k, w, script)
  {
    || Answers(srv, k, w, script) == Done
    || (&& AllFine(script) && |script| >= CallsLeft(w) && !srv.strict
        && k in srv.owners && srv.owners[k].cluster in srv.clusters)
  }

  lemma {:induction false} UnclaimedEndsStuck(srv: Server, k: Key, w: Worker, script: seq<Move>)
    requires ScriptOk(srv, k, w, script) && GetsThrough(srv, k, w, script)
    requires ServerInv(srv) && WorkerInv(srv, k, w) && AboutToAdd(srv, k, w)
    ensures Stuck(Go(srv, k, w, script), k)
    decreases |script|
  {
    hide ServerInv, WorkerInv;
    var c := script[0].c;
    var srv', w' := Effect(srv, k, w, c), Continue(srv, k, w, c.outcome);
    GoStep(srv, k, w, script);
    assert !Fails(srv, k, w, c.outcome);
    AboutToAddStep(srv, k, w, c);
    WorkerKeepsInv(srv, k, w, c);
    RankDecreases(srv, k, w, c.outcome);
    if w.GotCluster? {
      AddingEndsStuck(srv', k, w', script[1..]);
    } else {
      UnclaimedEndsStuck(srv, k, w', script[1..]);
    }
  }

  /** On a server that takes new finalizers during deletion, a fault-free reconcile of a machine under
      deletion gets its finalizer off exactly when the finalizer was on before the reconcile began: the
      closing patch is diffed against a snapshot from before the finalizer was added. */
  lemma {:induction false} ReleasesExactlyWhenClaimedBefore(srv: Server, k: Key, script: seq<Move>)
    requires ServerInv(srv) && k in srv.machines && srv.machines[k].deleting && !srv.strict
    requires Place(srv, k, srv.machines[k]).Some?
    requires k in srv.owners && srv.owners[k].cluster in srv.clusters
    requires ScriptOk(srv, k, Idle, script) && AllFine(script) && |script| >= CALLS_PER_RECONCILE
    ensures Released(Go(srv, k, Idle, script), k) <==> Claimed(srv.machines[k])
  {
    if Claimed(srv.machines[k]) {
      CleanUp(srv, k, Idle, script, Place(srv, k, srv.machines[k]).value);
    } else {
      UnclaimedEndsStuck(srv, k, Idle, script);
    }
  }

  // ---------- what success means ----------

  /** The reply loses a deferred write that matters: the one that turns Ready on, or the one that takes the
      finalizer off. */
  predicate LosesOutcome(w: Worker, o: Outcome) {
    match w
    case DeferMeta(l) => Claimed(l.snap) && !Claimed(l.km) && !Lands(o)
    case DeferStatus(l) => l.km.ready && !l.snap.ready && !Lands(o)
    case _ => false
  }

  /** That happens somewhere in the reconcile. */
  ghost predicate EverLosesOutcome(srv: Server, k: Key, w: Worker, script: seq<Move>)
    requires ScriptOk(srv, k, w, script)
    decreases |script|
  {
    && script != [] && script[0].Call?
    && var c := script[0].c;
       var w' := Continue(srv, k, w, c.outcome);
       LosesOutcome(w, c.outcome) || (!w'.Idle? && EverLosesOutcome(Effect(srv, k, w, c), k, w', script[1..]))
  }

  /** Somebody else has to act first: the cluster's infrastructure or the bootstrap data is missing. */
  predicate Waiting(srv: Server, k: Key) {
    && k in srv.owners
    && var o := srv.owners[k];
       !o.bootstrapData || (o.cluster in srv.clusters && !srv.clusters[o.cluster])
  }

  /** Nothing is left for this controller to do: a machine that has an owner is released if it is under
      deletion, and otherwise Ready or waiting. */
  predicate Finished(srv: Server, k: Key) {
    k in srv.machines && k in srv.owners ==>
      if srv.machines[k].deleting then !Claimed(srv.machines[k]) else Ready(srv, k) || Waiting(srv, k)
  }

  /** Under deletion, with an owner, and without the finalizer that this controller would have to take off. */
  predicate DeletedUnclaimed(srv: Server, k: Key) {
    k in srv.machines && k in srv.owners && srv.machines[k].deleting && !Claimed(srv.machines[k])
  }

  predicate CurrentOwner(srv: Server, k: Key, osnap: Owner) {
    && k in srv.owners
    && var o := srv.owners[k];
       o.cluster == osnap.cluster && o.bootstrapData == osnap.bootstrapData
  }

  predicate CurrentLocal(srv: Server, k: Key, l: Local) {
    && k in srv.machines && CurrentOwner(srv, k, l.osnap)
    && var m := srv.machines[k];
       && m.deleting == l.snap.deleting && m.ready == l.snap.ready
       && m.finalizers == l.snap.finalizers + {MACHINE_FINALIZER} && (m.deleting ==> Claimed(l.snap))
       && l.osnap.cluster in srv.clusters && srv.clusters[l.osnap.cluster] == l.infra
  }

  /** The deferred patches are about to finish the job, or it has to wait. */
  predicate OnGoal(srv: Server, k: Key, l: Local) {
    && !l.snap.deleting && (l.snap.ready ==> l.km.ready)
    && if l.km.ready && !l.snap.ready then !Waiting(srv, k) else l.snap.ready || Waiting(srv, k)
  }

  /** The reconcile has not failed so far and works on what the server holds; `lost` tells whether it has
      already lost what it was to do. */
  predicate Succeeding(srv: Server, k: Key, w: Worker, lost: bool) {
    match w
    case Idle => !lost && (k in srv.machines && srv.machines[k].deleting ==> Claimed(srv.machines[k]))
    case GotMachine(snap) => !lost && k in srv.machines && snap == srv.machines[k] && (snap.deleting ==> Claimed(snap))
    case GotOwner(snap, osnap) =>
      && !lost && k in srv.machines && snap == srv.machines[k] && (snap.deleting ==> Claimed(snap))
      && CurrentOwner(srv, k, osnap)
    case GotCluster(snap, osnap, infra) =>
      && !lost && k in srv.machines && snap == srv.machines[k] && (snap.deleting ==> Claimed(snap))
      && CurrentOwner(srv, k, osnap) && osnap.cluster in srv.clusters && infra == srv.clusters[osnap.cluster]
    case Resolving(l) => !lost && CurrentLocal(srv, k, l)
    case Body(_, l, _) => !lost && CurrentLocal(srv, k, l)
    case DeferMachine(l) => !lost && CurrentLocal(srv, k, l) && OnGoal(srv, k, l)
    case DeferMeta(l) =>
      && !lost && CurrentLocal(srv, k, l)
      && if l.snap.deleting then l.km == Release(Claim(l.snap)) else OnGoal(srv, k, l)
    case DeferStatus(l) =>
      if l.snap.deleting then
        && (k in srv.machines ==> srv.machines[k].deleting) && CurrentOwner(srv, k, l.osnap)
        && l.km.ready == l.snap.ready && (lost <==> !Finished(srv, k))
      else
        && !lost && k in srv.machines && !srv.machines[k].deleting && srv.machines[k].ready == l.snap.ready
        && CurrentOwner(srv, k, l.osnap) && OnGoal(srv, k, l)
  }

  lemma SuccessfulRead(srv: Server, k: Key, w: Worker, c: Choice, lost: bool)
    requires ChoiceOk(w, c) && WorkerInv(srv, k, w) && Succeeding(srv, k, w, lost) && !Fails(srv, k, w, c.outcome)
    requires w.Idle? || w.GotMachine? || w.GotOwner? || w.GotCluster? || w.Resolving?
    ensures var srv', w' := Effect(srv, k, w, c), Continue(srv, k, w, c.outcome);
            var lost' := lost || LosesOutcome(w, c.outcome);
            if w'.Idle? then lost' <==> !Finished(srv', k) else Succeeding(srv', k, w', lost')
  {
    hide TargetOf, BuildPod, Overlay;
  }

  lemma SuccessfulBody(srv: Server, k: Key, w: Worker, c: Choice, lost: bool)
    requires ChoiceOk(w, c) && WorkerInv(srv, k, w) && Succeeding(srv, k, w, lost) && !Fails(srv, k, w, c.outcome)
    requires w.Body?
    ensures var srv', w' := Effect(srv, k, w, c), Continue(srv, k, w, c.outcome);
            var lost' := lost || LosesOutcome(w, c.outcome);
            if w'.Idle? then lost' <==> !Finished(srv', k) else Succeeding(srv', k, w', lost')
  {
    hide TargetOf, BuildPod, Overlay;
  }

  lemma SuccessfulDefer(srv: Server, k: Key, w: Worker, c: Choice, lost: bool)
    requires ChoiceOk(w, c) && WorkerInv(srv, k, w) && Succeeding(srv, k, w, lost) && !Fails(srv, k, w, c.outcome)
    requires w.DeferMachine? || w.DeferMeta? || w.DeferStatus?
    ensures var srv', w' := Effect(srv, k, w, c), Continue(srv, k, w, c.outcome);
            var lost' := lost || LosesOutcome(w, c.outcome);
            if w'.Idle? then lost' <==> !Finished(srv', k) else Succeeding(srv', k, w', lost')
  {
    hide TargetOf, BuildPod, Overlay;
  }

  lemma {:induction false} SuccessTellsTheOutcome(srv: Server, k: Key, w: Worker, script: seq<Move>, lost: bool)
    requires ScriptOk(srv, k, w, script) && ServerInv(srv) && WorkerInv(srv, k, w) && Succeeding(srv, k, w, lost)
    requires Answers(srv, k, w, script) == Done
    ensures Finished(Go(srv, k, w, script), k) <==> !lost && !EverLosesOutcome(srv, k, w, script)
    decreases |script|
  {
    hide ServerInv, WorkerInv, Succeeding, Finished, Fails, Effect, Continue, LosesOutcome;
    var c := script[0].c;
    GoStep(srv, k, w, script);
    if w.Body? {
      SuccessfulBody(srv, k, w, c, lost);
    } else if w.DeferMachine? || w.DeferMeta? || w.DeferStatus? {
      SuccessfulDefer(srv, k, w, c, lost);
    } else {
      SuccessfulRead(srv, k, w, c, lost);
    }
    WorkerKeepsInv(srv, k, w, c);
    var w' := Continue(srv, k, w, c.outcome);
    if !w'.Idle? {
      SuccessTellsTheOutcome(Effect(srv, k, w, c), k, w', script[1..], lost || LosesOutcome(w, c.outcome));
    }
  }

  lemma OwnerlessIsLeftAlone(srv: Server, k: Key, script: seq<Move>)
    requires k in srv.machines && k !in srv.owners
    requires ScriptOk(srv, k, Idle, script) && Answers(srv, k, Idle, script) == Done
    ensures Go(srv, k, Idle, script) == srv && !EverLosesOutcome(srv, k, Idle, script)
  {
    GoStep(srv, k, Idle, script);
    GoStep(srv, k, GotMachine(srv.machines[k]), script[1..]);
  }

  /** A reconcile that reports success leaves the machine released if it is under deletion, and otherwise Ready
      or waiting, exactly if it loses neither the write that turns Ready on nor the one that takes the finalizer
      off, and the machine was not under deletion with the finalizer still to be added. */
  lemma SuccessMeansFinished(srv: Server, k: Key, script: seq<Move>)
    requires ServerInv(srv) && ScriptOk(srv, k, Idle, script) && Answers(srv, k, Idle, script) == Done
    ensures Finished(Go(srv, k, Idle, script), k) <==>
              !EverLosesOutcome(srv, k, Idle, script) && !DeletedUnclaimed(srv, k)
  {
    if DeletedUnclaimed(srv, k) {
      UnclaimedEndsStuck(srv, k, Idle, script);
    } else if k in srv.machines && k !in srv.owners {
      OwnerlessIsLeftAlone(srv, k, script);
    } else {
      SuccessTellsTheOutcome(srv, k, Idle, script, false);
    }
  }

  lemma {:induction false} LoseRelease(srv: Server, k: Key, w: Worker) returns (script: seq<Move>)
    requires ServerInv(srv) && WorkerInv(srv, k, w) && Doomed(srv, k) && OnWayOut(srv, k, w) && !w.DeferStatus?
    ensures ScriptOk(srv, k, w, script) && Answers(srv, k, w, script) == Done && EverLosesOutcome(srv, k, w, script)
    decreases CallsLeft(w)
  {
    hide ServerInv, TargetOf, BuildPod;
    var c := Losing(w, MachinePatch, []);
    var srv', w' := Effect(srv, k, w, c), Continue(srv, k, w, c.outcome);
    if w.DeferMeta? {
      script := [Call(c), Call(Choice(Fine, 0, []))];
      assert script[1..] == [Call(Choice(Fine, 0, []))];
    } else {
      WorkerKeepsInv(srv, k, w, c);
      FineStepStaysOnWayOut(srv, k, w, c);
      RankDecreases(srv, k, w, c.outcome);
      var rest := LoseRelease(srv', k, w');
      script := [Call(c)] + rest;
      assert script[1..] == rest;
    }
  }

  /** In every clean-up the closing patch can be lost, which leaves the finalizer on while the reconcile reports
      success and so asks for no retry. */
  lemma LostReleaseIsNotRetried(srv: Server, k: Key) returns (script: seq<Move>)
    requires ServerInv(srv) && Doomed(srv, k)
    ensures ScriptOk(srv, k, Idle, script) && Answers(srv, k, Idle, script) == Done
    ensures !Finished(Go(srv, k, Idle, script), k)
  {
    script := LoseRelease(srv, k, Idle);
    SuccessMeansFinished(srv, k, script);
  }
}
