/** The reconcile in the form the controller has it: one method that works on local copies, returns early, and
    runs its deferred patches last in, first out (controllers/kubemarkmachine_controller.go, Reconcile). */
module Reconciler {
  import opened Common
  import opened KubemarkCluster
  import opened HollowPod
  import opened Protocol
  import opened Drive

  class KubemarkMachineReconciler {
    /** Everything behind the client. */
    var api: Server
    /** How the calls to come will end; each use of the client, a patch helper or the target lookup takes one. */
    var script: seq<Move>

    /** The reply to the next call, or the death of the process before it. */
    method Await() returns (alive: bool, c: Choice)
      modifies this`script
      ensures alive <==> old(script) != [] && old(script)[0].Call?
      ensures alive ==> c == old(script)[0].c && script == old(script)[1..]
    {
      c := Choice(Fine, 0, []);
      alive := script != [] && script[0].Call?;
      if alive {
        c := script[0].c;
        script := script[1..];
      }
    }

    /** The next call, which only reads: `w` is the worker that makes it. */
    method Read(ghost k: Key, ghost w: Worker) returns (alive: bool, c: Choice)
      requires ScriptOk(api, k, w, script)
      requires w.Idle? || w.GotMachine? || w.GotOwner? || w.Resolving? || (w.Body? && (w.pc.RemoteConfig? || w.pc.ReadCA?))
      modifies this`script
      ensures !alive ==> api == Go(api, k, w, old(script)) && Answers(api, k, w, old(script)) == Died
      ensures alive ==> old(script) != [] && old(script)[0] == Call(c) && script == old(script)[1..]
      ensures alive ==>
                var w' := Continue(api, k, w, c.outcome);
                var fails := Fails(api, k, w, c.outcome);
                if w'.Idle? then Go(api, k, w, old(script)) == api && Answers(api, k, w, old(script)) == Return(fails, Done)
                else
                  && ScriptOk(api, k, w', script) && Go(api, k, w, old(script)) == Go(api, k, w', script)
                  && Answers(api, k, w, old(script)) == Return(fails, Answers(api, k, w', script))
    {
      alive, c := Await();
      if alive {
        GoStep(api, k, w, old(script));
        ReadsWriteNothing(api, k, w, c);
      }
    }

    /** The helper's Patch: metadata and spec of `km` against the snapshot `snap`. */
    method PatchMachine(ghost w: Worker, k: Key, snap: KubemarkMachine, km: KubemarkMachine)
      returns (alive: bool, ok: bool)
      requires ScriptOk(api, k, w, script)
      requires (w.GotCluster? && w.snap == snap && km == Claim(snap)) || (w.DeferMeta? && w.l.snap == snap && w.l.km == km)
      modifies this
      ensures !alive ==> api == Go(old(api), k, w, old(script)) && Answers(old(api), k, w, old(script)) == Died
      ensures alive ==>
                && old(script) != [] && old(script)[0].Call?
                && (ok <==> !HasMetaDiff(snap, km) ||
                            (old(script)[0].c.outcome.Fine? && AcceptsMeta(old(api), k, snap, km)))
                && var w' := Continue(old(api), k, w, old(script)[0].c.outcome);
                   var fails := Fails(old(api), k, w, old(script)[0].c.outcome);
                   if w'.Idle? then
                     && api == Go(old(api), k, w, old(script))
                     && Answers(old(api), k, w, old(script)) == Return(fails, Done)
                   else
                     && ScriptOk(api, k, w', script) && Go(api, k, w', script) == Go(old(api), k, w, old(script))
                     && Answers(old(api), k, w, old(script)) == Return(fails, Answers(api, k, w', script))
    {
      var c;
      alive, c := Await();
      if !alive {
        return false, false;
      }
      GoStep(api, k, w, old(script));
      ok := !HasMetaDiff(snap, km) || (c.outcome.Fine? && AcceptsMeta(api, k, snap, km));
      api := api.(machines := PatchMeta(api, k, snap, km, c.outcome));
      assert api == Effect(old(api), k, w, c);
    }

    method Reconcile(k: Key) returns (answer: Answer)
      requires ScriptOk(api, k, Idle, script)
      modifies this
      ensures api == Go(old(api), k, Idle, old(script))
      ensures answer == Answers(old(api), k, Idle, old(script))
    {
      // fetch the KubemarkMachine, its owner Machine and their cluster
      var alive, c := Read(k, Idle);
      if !alive {
        return Died;
      }
      if c.outcome.Fault? {
        return Failed;
      }
      if k !in api.machines {
        return Done;
      }
      var kubemarkMachine := api.machines[k];
      alive, c := Read(k, GotMachine(kubemarkMachine));
      if !alive {
        return Died;
      }
      if c.outcome.Fault? {
        return Failed;
      }
      if k !in api.owners {
        return Done;
      }
      var machine := api.owners[k];
      alive, c := Read(k, GotOwner(kubemarkMachine, machine));
      if !alive {
        return Died;
      }
      if c.outcome.Fault? || machine.cluster !in api.clusters {
        return Failed;
      }
      var infrastructureReady := api.clusters[machine.cluster];

      // the patch helper keeps the object as it was read
      var before := kubemarkMachine;
      kubemarkMachine := kubemarkMachine.(finalizers := kubemarkMachine.finalizers + {MACHINE_FINALIZER});
      var ok;
      alive, ok := PatchMachine(GotCluster(before, machine, infrastructureReady), k, before, kubemarkMachine);
      if !alive {
        return Died;
      }
      if !ok {
        return Failed;
      }
      var l := Local(before, kubemarkMachine, machine, machine, infrastructureReady);
      var armed, failed;
      alive, armed, l, failed := Provision(k, l);
      if alive {
        alive := RunDeferred(k, armed, l);
      }
      return if !alive then Died else if failed then Failed else Done;
    }

    /** The deferred patches: the owner Machine's first, if it was armed. */
    method RunDeferred(k: Key, armed: bool, l: Local) returns (alive: bool)
      requires ScriptOk(api, k, Rest(armed, l), script)
      modifies this
      ensures api == Go(old(api), k, Rest(armed, l), old(script))
      ensures Answers(old(api), k, Rest(armed, l), old(script)) == if alive then Done else Died
    {
      var ok, c;
      if armed {
        alive, c := Await();
        if !alive {
          return;
        }
        GoStep(api, k, DeferMachine(l), old(script));
        api := api.(owners := PatchOwner(api.owners, k, l.osnap, l.owner, c.outcome));
        assert api == Effect(old(api), k, DeferMachine(l), c);
      }
      // the error is only logged, so `ok` is not looked at
      alive, ok := PatchMachine(DeferMeta(l), k, l.snap, l.km);
      if alive {
        alive := PatchReady(k, l);
      }
    }

    method PatchReady(k: Key, l: Local) returns (alive: bool)
      requires ScriptOk(api, k, DeferStatus(l), script)
      modifies this
      ensures api == Go(old(api), k, DeferStatus(l), old(script))
      ensures Answers(old(api), k, DeferStatus(l), old(script)) == if alive then Done else Died
    {
      var c;
      alive, c := Await();
      if alive {
        GoStep(api, k, DeferStatus(l), old(script));
        api := api.(machines := PatchStatus(api.machines, k, l.snap, l.km, c.outcome));
        assert api == Effect(old(api), k, DeferStatus(l), c);
      }
    }

    /** The worker that `Provision` leaves to the deferred patches. */
    ghost function Rest(armed: bool, l: Local): Worker {
      if armed then DeferMachine(l) else DeferMeta(l)
    }

    /** The part of the method between the first patch and the deferred ones. */
    method Provision(k: Key, before: Local) returns (alive: bool, armed: bool, l: Local, failed: bool)
      requires ScriptOk(api, k, Resolving(before), script)
      modifies this
      ensures !alive ==> api == Go(old(api), k, Resolving(before), old(script))
      ensures !alive ==> Answers(old(api), k, Resolving(before), old(script)) == Died
      ensures alive ==> ScriptOk(api, k, Rest(armed, l), script)
      ensures alive ==> Go(api, k, Rest(armed, l), script) == Go(old(api), k, Resolving(before), old(script))
      ensures alive ==> Answers(old(api), k, Resolving(before), old(script)) == Return(failed, Answers(api, k, Rest(armed, l), script))
    {
      l, armed, failed := before, false, true;
      var c;
      alive, c := Read(k, Resolving(l));
      if !alive {
        return;
      }
      var place := TargetOf(api.hosts, k, l.km.secretRef);
      if (l.km.secretRef.Some? && c.outcome.Fault?) || place.None? {
        return;
      }
      if l.km.deleting {
        alive, l, failed := Teardown(k, l, place.value);
        return;
      }
      if l.km.ready {
        failed := false;
        return;
      }
      armed := true;
      alive, c := Read(k, Body(RemoteConfig, l, place.value));
      if !alive || c.outcome.Fault? {
        return;
      }
      if !l.infra || !l.osnap.bootstrapData {
        failed := false;
        return;
      }
      // the cluster CA, then the key, certificate and kubeconfig made from it
      alive, c := Read(k, Body(ReadCA, l, place.value));
      if !alive || c.outcome.Fault? {
        return;
      }
      alive, l, failed := CreateObjects(k, l, place.value);
    }

    /** Pod first, then Secret; the finalizer comes off the local copy only after both. */
    method Teardown(k: Key, before: Local, t: Target) returns (alive: bool, l: Local, failed: bool)
      requires ScriptOk(api, k, Body(DeletePod, before, t), script)
      modifies this
      ensures !alive ==> api == Go(old(api), k, Body(DeletePod, before, t), old(script))
      ensures !alive ==> Answers(old(api), k, Body(DeletePod, before, t), old(script)) == Died
      ensures alive ==> ScriptOk(api, k, DeferMeta(l), script)
      ensures alive ==> Go(api, k, DeferMeta(l), script) == Go(old(api), k, Body(DeletePod, before, t), old(script))
      ensures alive ==> Answers(old(api), k, Body(DeletePod, before, t), old(script)) == Return(failed, Answers(api, k, DeferMeta(l), script))
    {
      l, failed := before, true;
      var c;
      alive, c := Await();
      if !alive {
        return;
      }
      GoStep(api, k, Body(DeletePod, l, t), old(script));
      api := api.(pods := Delete(api.pods, t, c.outcome));
      assert api == Effect(old(api), k, Body(DeletePod, l, t), c);
      if c.outcome.Fault? {
        return;
      }
      ghost var api1, script1 := api, script;
      alive, c := Await();
      if !alive {
        return;
      }
      GoStep(api1, k, Body(DeleteSecret, l, t), script1);
      api := api.(secrets := Delete(api.secrets, t, c.outcome));
      assert api == Effect(api1, k, Body(DeleteSecret, l, t), c);
      if c.outcome.Fault? {
        return;
      }
      l := l.(km := l.km.(finalizers := l.km.finalizers - {MACHINE_FINALIZER}));
      failed := false;
    }

    /** Secret, version gate, Pod; then the provider IDs and Ready are set on the local copies. */
    method CreateObjects(k: Key, before: Local, t: Target) returns (alive: bool, l: Local, failed: bool)
      requires ScriptOk(api, k, Body(CreateSecret, before, t), script)
      modifies this
      ensures !alive ==> api == Go(old(api), k, Body(CreateSecret, before, t), old(script))
      ensures !alive ==> Answers(old(api), k, Body(CreateSecret, before, t), old(script)) == Died
      ensures alive ==> ScriptOk(api, k, DeferMachine(l), script)
      ensures alive ==> Go(api, k, DeferMachine(l), script) == Go(old(api), k, Body(CreateSecret, before, t), old(script))
      ensures alive ==> Answers(old(api), k, Body(CreateSecret, before, t), old(script)) == Return(failed, Answers(api, k, DeferMachine(l), script))
    {
      l, failed := before, true;
      var c;
      alive, c := Await();
      if !alive {
        return;
      }
      GoStep(api, k, Body(CreateSecret, l, t), old(script));
      api := api.(secrets := Create(api.secrets, t, Secret(k, c.bytes), c.outcome));
      assert api == Effect(old(api), k, Body(CreateSecret, l, t), c);
      if c.outcome.Fault? {
        return;
      }
      var version := l.osnap.version;
      if version.None? {
        return;
      }
      if version.value.check.Unparsable? {
        return;
      }
      if version.value.check.TooLow? && l.km.options.Some? {
        return;
      }
      alive, l, failed := CreatePodObject(k, l, t, version.value);
    }

    method CreatePodObject(k: Key, before: Local, t: Target, version: Version) returns (alive: bool, l: Local, failed: bool)
      requires ScriptOk(api, k, Body(CreatePod, before, t), script) && before.osnap.version == Some(version)
      modifies this
      ensures !alive ==> api == Go(old(api), k, Body(CreatePod, before, t), old(script))
      ensures !alive ==> Answers(old(api), k, Body(CreatePod, before, t), old(script)) == Died
      ensures alive ==> ScriptOk(api, k, DeferMachine(l), script)
      ensures alive ==> Go(api, k, DeferMachine(l), script) == Go(old(api), k, Body(CreatePod, before, t), old(script))
      ensures alive ==> Answers(old(api), k, Body(CreatePod, before, t), old(script)) == Return(failed, Answers(api, k, DeferMachine(l), script))
    {
      l, failed := before, true;
      var c;
      alive, c := Await();
      if !alive {
        return;
      }
      GoStep(api, k, Body(CreatePod, l, t), old(script));
      var pod := MakePod(api.image, k, t, l.km.mounts, l.km.options, version, c.order);
      api := api.(pods := Create(api.pods, t, pod, c.outcome));
      assert api == Effect(old(api), k, Body(CreatePod, l, t), c);
      if c.outcome.Fault? {
        return;
      }
      var providerID := Some("kubemark://" + k.name);
      l := l.(owner := l.owner.(providerID := providerID));
      l := l.(km := l.km.(providerID := providerID));
      l := l.(km := l.km.(ready := true));
      failed := false;
    }
  }
}
