/** One reconcile taken from its first call to its end, under a script that fixes how every call ends; and
    what a single reconcile does and keeps. */
module Drive {
  import opened Common
  import opened KubemarkCluster
  import opened HollowPod
  import opened Protocol
  import opened Safety
  import opened Convergence

  /** What happens at the next call: it ends in some way, or the process dies first. */
  datatype Move = Call(c: Choice) | Die

  /** The script offers a usable iteration order where one is needed. */
  ghost predicate ScriptOk(srv: Server, k: Key, w: Worker, script: seq<Move>)
    decreases |script|
  {
    script != [] && script[0].Call? ==>
      && ChoiceOk(w, script[0].c)
      && var w' := Continue(srv, k, w, script[0].c.outcome);
         w'.Idle? || ScriptOk(Effect(srv, k, w, script[0].c), k, w', script[1..])
  }

  /** The server after worker `w` has run to its end; a script that is too short is a death. */
  ghost function Go(srv: Server, k: Key, w: Worker, script: seq<Move>): Server
    requires ScriptOk(srv, k, w, script)
    decreases |script|
  {
    if script == [] || script[0].Die? then srv
    else
      var c := script[0].c;
      var w' := Continue(srv, k, w, c.outcome);
      if w'.Idle? then Effect(srv, k, w, c) else Go(Effect(srv, k, w, c), k, w', script[1..])
  }

  /** What a reconcile returns, unless the process dies first: success, or an error, which asks for a retry. */
  datatype Answer = Died | Done | Failed

  /** The reply makes the reconcile return an error: the first patch counts, the deferred ones are only logged. */
  predicate Fails(srv: Server, k: Key, w: Worker, o: Outcome) {
    match w
    case GotOwner(_, osnap) => o.Fault? || osnap.cluster !in srv.clusters
    case GotCluster(_, _, _) => Continue(srv, k, w, o).Idle?
    case Resolving(l) => (l.km.secretRef.Some? && o.Fault?) || Place(srv, k, l.km).None?
    case Body(pc, l, _) => o.Fault? || (pc.CreateSecret? && !PodAllowed(l.osnap.version, l.km.options))
    case DeferMachine(_) => false
    case DeferMeta(_) => false
    case DeferStatus(_) => false
    case _ => o.Fault?
  }

  function Return(fails: bool, rest: Answer): Answer {
    if fails && !rest.Died? then Failed else rest
  }

  /** The answer of a reconcile that goes on as `w`. */
  ghost function Answers(srv: Server, k: Key, w: Worker, script: seq<Move>): Answer
    requires ScriptOk(srv, k, w, script)
    decreases |script|
  {
    if script == [] || script[0].Die? then Died
    else
      var c := script[0].c;
      var w' := Continue(srv, k, w, c.outcome);
      Return(Fails(srv, k, w, c.outcome),
             if w'.Idle? then Done else Answers(Effect(srv, k, w, c), k, w', script[1..]))
  }

  lemma GoStep(srv: Server, k: Key, w: Worker, script: seq<Move>)
    requires ScriptOk(srv, k, w, script) && script != [] && script[0].Call?
    ensures ChoiceOk(w, script[0].c)
    ensures var c := script[0].c;
            var srv', w' := Effect(srv, k, w, c), Continue(srv, k, w, c.outcome);
            if w'.Idle? then
              Go(srv, k, w, script) == srv' && Answers(srv, k, w, script) == Return(Fails(srv, k, w, c.outcome), Done)
            else
              && ScriptOk(srv', k, w', script[1..]) && Go(srv, k, w, script) == Go(srv', k, w', script[1..])
              && Answers(srv, k, w, script) == Return(Fails(srv, k, w, c.outcome), Answers(srv', k, w', script[1..]))
  {
  }

  lemma ReadsWriteNothing(srv: Server, k: Key, w: Worker, c: Choice)
    requires ChoiceOk(w, c)
    requires w.Idle? || w.GotMachine? || w.GotOwner? || w.Resolving? || (w.Body? && (w.pc.RemoteConfig? || w.pc.ReadCA?))
    ensures Effect(srv, k, w, c) == srv
  {
  }

  function CallsLeft(w: Worker): nat {
    if w.Idle? then CALLS_PER_RECONCILE else Rank(w)
  }

  // ---------- a reconcile is a run ----------

  /** What a single reconcile does is a run of the protocol in which only `k`'s worker moves. */
  lemma {:induction false} GoIsARun(s: State, k: Key, script: seq<Move>) returns (ss: seq<State>, evs: seq<Event>)
    requires ScriptOk(s.srv, k, W(s, k), script)
    ensures IsRun(ss, evs) && ss[0] == s
    ensures forall i :: 0 <= i < |evs| ==> !evs[i].Env? && evs[i].k == k
    ensures ss[|evs|].srv == Go(s.srv, k, W(s, k), script) && W(ss[|evs|], k).Idle?
    decreases |script|
  {
    var w := W(s, k);
    if script == [] || script[0].Die? {
      if w.Idle? {
        ss, evs := [s], [];
      } else {
        ss, evs := [s, Next(s, Crash(k))], [Crash(k)];
      }
    } else {
      var ev := Act(k, script[0].c);
      var s' := Next(s, ev);
      if W(s', k).Idle? {
        ss, evs := [s, s'], [ev];
      } else {
        var ss', evs' := GoIsARun(s', k, script[1..]);
        ss, evs := [s] + ss', [ev] + evs';
        forall i | 0 <= i < |evs|
          ensures Enabled(ss[i], evs[i]) && ss[i + 1] == Next(ss[i], evs[i])
          ensures !evs[i].Env? && evs[i].k == k
        {
          if i > 0 {
            assert ss[i] == ss'[i - 1] && evs[i] == evs'[i - 1] && ss[i + 1] == ss'[i];
          }
        }
      }
    }
  }

  lemma {:induction false} GoKeepsInv(srv: Server, k: Key, w: Worker, script: seq<Move>)
    requires ScriptOk(srv, k, w, script) && ServerInv(srv) && WorkerInv(srv, k, w)
    ensures ServerInv(Go(srv, k, w, script))
    decreases |script|
  {
    hide ServerInv, WorkerInv, Effect, Continue;
    if script != [] && script[0].Call? {
      WorkerKeepsInv(srv, k, w, script[0].c);
      var w' := Continue(srv, k, w, script[0].c.outcome);
      if !w'.Idle? {
        GoKeepsInv(Effect(srv, k, w, script[0].c), k, w', script[1..]);
      }
    }
  }

  lemma EffectKeepsPlace(srv: Server, k: Key, w: Worker, c: Choice)
    requires ChoiceOk(w, c)
    ensures var srv' := Effect(srv, k, w, c);
            && srv'.hosts == srv.hosts
            && (k in srv'.machines ==> k in srv.machines && srv'.machines[k].secretRef == srv.machines[k].secretRef)
  {
  }

  lemma {:induction false} GoKeepsPlace(srv: Server, k: Key, w: Worker, script: seq<Move>)
    requires ScriptOk(srv, k, w, script)
    ensures var after := Go(srv, k, w, script);
            k in after.machines ==> k in srv.machines && Place(after, k, after.machines[k]) == Place(srv, k, srv.machines[k])
    decreases |script|
  {
    hide Effect, Continue, ChoiceOk, TargetOf;
    if script != [] && script[0].Call? {
      EffectKeepsPlace(srv, k, w, script[0].c);
      var w' := Continue(srv, k, w, script[0].c.outcome);
      if !w'.Idle? {
        GoKeepsPlace(Effect(srv, k, w, script[0].c), k, w', script[1..]);
      }
    }
  }

  // ---------- the Ready short-cut ----------

  predicate Settled(m: KubemarkMachine) {
    m.ready && !m.deleting && Claimed(m)
  }

  predicate Skipping(srv: Server, k: Key, w: Worker) {
    match w
    case Idle => k in srv.machines && Settled(srv.machines[k])
    case GotMachine(snap) => Settled(snap)
    case GotOwner(snap, _) => Settled(snap)
    case GotCluster(snap, _, _) => Settled(snap)
    case Resolving(l) => Settled(l.snap) && l.km == l.snap
    case Body(_, _, _) => false
    case DeferMachine(_) => false
    case DeferMeta(l) => l.km == l.snap
    case DeferStatus(l) => l.km == l.snap
  }

  lemma SkippingWritesNothing(srv: Server, k: Key, w: Worker, c: Choice)
    requires ChoiceOk(w, c) && Skipping(srv, k, w)
    ensures Effect(srv, k, w, c) == srv
    ensures Continue(srv, k, w, c.outcome).Idle? || Skipping(srv, k, Continue(srv, k, w, c.outcome))
  {
    if w.GotCluster? {
      assert Claim(w.snap) == w.snap;
    }
  }

  lemma {:induction false} SkippingChangesNothing(srv: Server, k: Key, w: Worker, script: seq<Move>)
    requires ScriptOk(srv, k, w, script) && Skipping(srv, k, w)
    ensures Go(srv, k, w, script) == srv
    decreases |script|
  {
    if script != [] && script[0].Call? {
      SkippingWritesNothing(srv, k, w, script[0].c);
      var w' := Continue(srv, k, w, script[0].c.outcome);
      if !w'.Idle? {
        SkippingChangesNothing(srv, k, w', script[1..]);
      }
    }
  }

  /** Reconciling a Ready machine that is not being deleted leaves the whole server as it was, however the
      calls end. */
  lemma ReadyIsAFixpoint(srv: Server, k: Key, script: seq<Move>)
    requires ServerInv(srv) && Ready(srv, k) && !srv.machines[k].deleting
    requires ScriptOk(srv, k, Idle, script)
    ensures Go(srv, k, Idle, script) == srv
  {
    SkippingChangesNothing(srv, k, Idle, script);
  }

  // ---------- one clean-up reconcile without failures ----------

  predicate AllFine(script: seq<Move>) {
    forall i :: 0 <= i < |script| ==> script[i].Call? && script[i].c.outcome.Fine?
  }

  /** What the clean-up has already removed at `t`. */
  predicate Swept(srv: Server, t: Target, w: Worker) {
    && (w.Body? && w.pc.DeleteSecret? ==> t !in srv.pods)
    && (w.DeferMeta? ==> t !in srv.pods && t !in srv.secrets)
  }

  lemma {:induction false} CleanUp(srv: Server, k: Key, w: Worker, script: seq<Move>, t: Target)
    requires ScriptOk(srv, k, w, script) && AllFine(script) && |script| >= CallsLeft(w)
    requires ServerInv(srv) && WorkerInv(srv, k, w) && Doomed(srv, k) && OnWayOut(srv, k, w)
    requires Place(srv, k, srv.machines[k]) == Some(t) && Swept(srv, t, w)
    ensures var after := Go(srv, k, w, script);
            && Released(after, k) && t !in after.pods && t !in after.secrets
            && after.machines - {k} == srv.machines - {k}
    decreases |script|
  {
    hide TargetOf, BuildPod, ServerInv;
    var c := script[0].c;
    var srv', w' := Effect(srv, k, w, c), Continue(srv, k, w, c.outcome);
    WorkerKeepsInv(srv, k, w, c);
    FineStepStaysOnWayOut(srv, k, w, c);
    RankDecreases(srv, k, w, c.outcome);
    if w.DeferMeta? {
      assert Go(srv', k, w', script[1..]) == srv';
    } else {
      CleanUp(srv', k, w', script[1..], t);
    }
  }
}
