/** What happens to machines that share a target; why the targets have to be distinct. */
module SharedTargets {
  import opened Common
  import opened ExtendedResources
  import opened KubemarkCluster
  import opened HollowPod
  import opened Protocol
  import opened Safety
  import opened Convergence
  import opened Drive
  import opened Losses

  // ---------- a clean-up sweeps away what the others have ----------

  /** Distinct targets are needed: one fault-free clean-up of `k` takes the Pod and the Secret of every other
      machine at the same target, which stays Ready without them. */
  lemma {:induction false} SharedTargetIsSwept(srv: Server, k: Key, j: Key, script: seq<Move>, t: Target)
    requires ServerInv(srv) && Doomed(srv, k) && j != k && Ready(srv, j) && !srv.machines[j].deleting
    requires Place(srv, k, srv.machines[k]) == Some(t) && Place(srv, j, srv.machines[j]) == Some(t)
    requires ScriptOk(srv, k, Idle, script) && AllFine(script) && |script| >= CALLS_PER_RECONCILE
    ensures var after := Go(srv, k, Idle, script);
            && j in after.machines && after.machines[j] == srv.machines[j]
            && t !in after.pods && t !in after.secrets
  {
    CleanUp(srv, k, Idle, script, t);
    var after := Go(srv, k, Idle, script);
    assert j in srv.machines - {k} && j in after.machines - {k};
    assert after.machines[j] == (after.machines - {k})[j];
  }

  // ---------- interleaved at a shared target, a clean-up leaves a Pod without its Secret ----------

  lemma Extend(ss: seq<State>, evs: seq<Event>, ev: Event) returns (ss': seq<State>, evs': seq<Event>)
    requires IsRun(ss, evs) && Enabled(ss[|evs|], ev)
    ensures IsRun(ss', evs') && ss'[0] == ss[0] && ss'[|evs'|] == Next(ss[|evs|], ev)
  {
    ss', evs' := ss + [Next(ss[|evs|], ev)], evs + [ev];
    forall i | 0 <= i < |evs'| ensures Enabled(ss'[i], evs'[i]) && ss'[i + 1] == Next(ss'[i], evs'[i]) {
      if i < |evs| { assert Enabled(ss[i], evs[i]) && ss[i + 1] == Next(ss[i], evs[i]); }
    }
  }

  /** No failure so far on the way to creating the Pod, or to deleting the Secret. */
  predicate Walking(srv: Server, k: Key, w: Worker, t: Target) {
    && k in srv.machines && Place(srv, k, srv.machines[k]) == Some(t)
    && if srv.machines[k].deleting then Doomed(srv, k) && OnWayOut(srv, k, w) && CallsLeft(w) >= 3
       else Fit(srv, k) && !Ready(srv, k) && OnTrack(srv, k, w) && CallsLeft(w) >= 4
  }

  predicate Arrived(srv: Server, k: Key, w: Worker, t: Target) {
    && Walking(srv, k, w, t) && w.Body? && w.target == t
    && w.pc == if srv.machines[k].deleting then DeleteSecret else CreatePod
  }

  lemma WalkingStep(srv: Server, k: Key, w: Worker, t: Target)
    requires ServerInv(srv) && WorkerInv(srv, k, w) && Walking(srv, k, w, t) && !Arrived(srv, k, w, t)
    ensures var c := Choice(Fine, 0, []);
            && ChoiceOk(w, c)
            && var srv', w' := Effect(srv, k, w, c), Continue(srv, k, w, Fine);
               !w'.Idle? && Walking(srv', k, w', t) && srv'.machines[k].deleting == srv.machines[k].deleting
  {
    hide TargetOf, BuildPod, ServerInv, Overlay, PodAllowed;
    var c := Choice(Fine, 0, []);
    if srv.machines[k].deleting {
      FineStepStaysOnWayOut(srv, k, w, c);
    } else {
      CreationWalksOn(srv, k, w, t);
    }
  }

  lemma CreationWalksOn(srv: Server, k: Key, w: Worker, t: Target)
    requires WorkerInv(srv, k, w) && Walking(srv, k, w, t) && !Arrived(srv, k, w, t) && !srv.machines[k].deleting
    ensures var c := Choice(Fine, 0, []);
            && ChoiceOk(w, c)
            && var srv', w' := Effect(srv, k, w, c), Continue(srv, k, w, Fine);
               !w'.Idle? && Walking(srv', k, w', t) && !srv'.machines[k].deleting
  {
    hide TargetOf, BuildPod, Overlay;
    OwnStepKeepsFit(srv, k, w, Choice(Fine, 0, []));
    FineStepStaysOnTrack(srv, k, w, Choice(Fine, 0, []));
  }

  /** The worker of `k` walks on alone until it has arrived. */
  lemma {:induction false} Walk(ss: seq<State>, evs: seq<Event>, k: Key, j: Key, t: Target)
    returns (ss': seq<State>, evs': seq<Event>)
    requires IsRun(ss, evs) && Inv(ss[0]) && j != k
    requires var s := ss[|evs|]; Walking(s.srv, k, W(s, k), t)
    ensures IsRun(ss', evs') && ss'[0] == ss[0]
    ensures var s, s' := ss[|evs|], ss'[|evs'|];
            && Arrived(s'.srv, k, W(s', k), t) && SameView(s.srv, s'.srv, j) && W(s', j) == W(s, j)
            && s'.srv.machines[k].deleting == s.srv.machines[k].deleting
    decreases CallsLeft(W(ss[|evs|], k))
  {
    hide ServerInv, WorkerInv, Walking, Arrived;
    var s := ss[|evs|];
    ss', evs' := ss, evs;
    if !Arrived(s.srv, k, W(s, k), t) {
      RunKeepsInv(ss, evs, |evs|);
      assert WorkerInv(s.srv, k, W(s, k));
      WalkingStep(s.srv, k, W(s, k), t);
      RankDecreases(s.srv, k, W(s, k), Fine);
      var ev := Act(k, Choice(Fine, 0, []));
      OthersKeepView(s, ev, j);
      ss', evs' := Extend(ss, evs, ev);
      ss', evs' := Walk(ss', evs', k, j, t);
    }
  }

  lemma StillWalking(s: State, s': State, k: Key, t: Target)
    requires SameView(s.srv, s'.srv, k) && W(s', k) == W(s, k) && Walking(s.srv, k, W(s, k), t)
    ensures Walking(s'.srv, k, W(s', k), t) && s'.srv.machines[k].deleting == s.srv.machines[k].deleting
  {
  }

  lemma SecretGoesFirst(s: State, j: Key, k: Key, t: Target, order: seq<string>)
    requires Inv(s) && j != k
    requires W(s, j).Body? && W(s, j).pc.CreatePod? && W(s, j).target == t && IsOrder(order, Overlay(W(s, j).l.km.options))
    requires W(s, k).Body? && W(s, k).pc.DeleteSecret? && W(s, k).target == t
    ensures var e1, e2 := Act(k, Choice(Fine, 0, [])), Act(j, Choice(Fine, 0, order));
            && Enabled(s, e1) && Enabled(Next(s, e1), e2)
            && t in Next(Next(s, e1), e2).srv.pods && t !in Next(Next(s, e1), e2).srv.secrets
  {
    hide BuildPod;
    assert WorkerInv(s.srv, j, W(s, j));
  }

  /** Distinct targets are needed for the order, too: whenever `j` is to be provisioned and `k` to be cleaned up
      at one target, a run without any failure leaves a Pod there without its Secret. */
  lemma SharedTargetLosesSecret(s: State, j: Key, k: Key, t: Target) returns (ss: seq<State>, evs: seq<Event>)
    requires Inv(s) && j != k && W(s, j).Idle? && W(s, k).Idle?
    requires Fit(s.srv, j) && !Ready(s.srv, j) && Doomed(s.srv, k)
    requires Place(s.srv, j, s.srv.machines[j]) == Some(t) && Place(s.srv, k, s.srv.machines[k]) == Some(t)
    ensures IsRun(ss, evs) && ss[0] == s
    ensures t in ss[|evs|].srv.pods && t !in ss[|evs|].srv.secrets
  {
    hide Inv, SameView, Next, Effect, Continue;
    ss, evs := Walk([s], [], j, k, t);
    StillWalking(s, ss[|evs|], k, t);
    ss, evs := Walk(ss, evs, k, j, t);
    var s' := ss[|evs|];
    var order := SomeOrder(Overlay(W(s', j).l.km.options));
    RunKeepsInv(ss, evs, |evs|);
    SecretGoesFirst(s', j, k, t, order);
    ss, evs := Extend(ss, evs, Act(k, Choice(Fine, 0, [])));
    ss, evs := Extend(ss, evs, Act(j, Choice(Fine, 0, order)));
  }

  // ---------- such states are reachable ----------

  const REF := SecretRef("hosts", "hollow")
  const HOSTS: map<SecretRef, HostSecret> := map[REF := HostSecret(Some(Reaches(External("big"))), Some("hollow"))]
  const ONE := Key("one", "node")
  const OTHER := Key("other", "node")
  const SHARED := Target(External("big"), "hollow", "node")
  const PLAIN := KubemarkMachine(false, {}, Some(REF), [], None, None, false)
  const OWNER := Owner(None, true, Some(Version("1.22.0", Supported)), "home")

  function Start(strict: bool): State {
    State(Server(strict, "kubemark", HOSTS, map[], map[], map[], map[], map[]), map[])
  }

  /** From an empty server: `ONE` to be provisioned and `OTHER`, claimed by a reconcile that then died, to be
      cleaned up, at the target that they share, and nothing published. */
  predicate Colliding(s: State) {
    && W(s, ONE).Idle? && W(s, OTHER).Idle?
    && Fit(s.srv, ONE) && !Ready(s.srv, ONE) && s.srv.machines[ONE].providerID.None? && s.srv.owners[ONE].providerID.None?
    && Doomed(s.srv, OTHER)
    && Place(s.srv, ONE, s.srv.machines[ONE]) == Some(SHARED) && Place(s.srv, OTHER, s.srv.machines[OTHER]) == Some(SHARED)
  }

  function Prepared(strict: bool): State {
    Start(strict).(srv := Start(strict).srv.(clusters := map["home" := true],
                                            machines := map[ONE := PLAIN, OTHER := PLAIN],
                                            owners := map[ONE := OWNER, OTHER := OWNER]))
  }

  lemma PreparedIsReachable(strict: bool) returns (ss: seq<State>, evs: seq<Event>)
    ensures IsRun(ss, evs) && ss[0] == Start(strict) && ss[|evs|] == Prepared(strict)
  {
    hide TargetOf, BuildPod, Overlay;
    ss, evs := [Start(strict)], [];
    ss, evs := Extend(ss, evs, Env(SetCluster("home", true)));
    ss, evs := Extend(ss, evs, Env(CreateMachine(ONE, PLAIN)));
    ss, evs := Extend(ss, evs, Env(SetOwner(ONE, OWNER)));
    ss, evs := Extend(ss, evs, Env(CreateMachine(OTHER, PLAIN)));
    ss, evs := Extend(ss, evs, Env(SetOwner(OTHER, OWNER)));
  }

  /** The reconcile of `OTHER` has come to `w`, having written nothing. */
  predicate HasRead(s: State, strict: bool, w: Worker) {
    s.srv == Prepared(strict).srv && W(s, ONE) == Idle && W(s, OTHER) == w
  }

  lemma ReadOn(s: State, strict: bool, w: Worker, w': Worker)
    requires HasRead(s, strict, w)
    requires (w, w') in {(Idle, GotMachine(PLAIN)), (GotMachine(PLAIN), GotOwner(PLAIN, OWNER)),
                         (GotOwner(PLAIN, OWNER), GotCluster(PLAIN, OWNER, true))}
    ensures var ev := Act(OTHER, Choice(Fine, 0, []));
            Enabled(s, ev) && HasRead(Next(s, ev), strict, w')
  {
    hide Effect;
    ReadsWriteNothing(s.srv, OTHER, w, Choice(Fine, 0, []));
  }

  lemma ReadsAreReachable(strict: bool) returns (ss: seq<State>, evs: seq<Event>)
    ensures IsRun(ss, evs) && ss[0] == Start(strict) && HasRead(ss[|evs|], strict, GotCluster(PLAIN, OWNER, true))
  {
    hide Next, Enabled;
    var read := Act(OTHER, Choice(Fine, 0, []));
    ss, evs := PreparedIsReachable(strict);
    ReadOn(ss[|evs|], strict, Idle, GotMachine(PLAIN));
    ss, evs := Extend(ss, evs, read);
    ReadOn(ss[|evs|], strict, GotMachine(PLAIN), GotOwner(PLAIN, OWNER));
    ss, evs := Extend(ss, evs, read);
    ReadOn(ss[|evs|], strict, GotOwner(PLAIN, OWNER), GotCluster(PLAIN, OWNER, true));
    ss, evs := Extend(ss, evs, read);
  }

  const CLAIMED := PLAIN.(finalizers := {MACHINE_FINALIZER})

  lemma ClaimOn(s: State, strict: bool)
    requires HasRead(s, strict, GotCluster(PLAIN, OWNER, true))
    ensures var ev := Act(OTHER, Choice(Fine, 0, []));
            && Enabled(s, ev) && !W(Next(s, ev), OTHER).Idle? && W(Next(s, ev), ONE).Idle?
            && Next(s, ev).srv == s.srv.(machines := map[ONE := PLAIN, OTHER := CLAIMED])
  {
    hide TargetOf, BuildPod, Overlay, TrimSpace;
    assert Claim(PLAIN) == CLAIMED;
  }

  lemma DieAndDelete(s: State, strict: bool)
    requires s.srv == Prepared(strict).srv.(machines := map[ONE := PLAIN, OTHER := CLAIMED])
    requires W(s, ONE).Idle? && !W(s, OTHER).Idle?
    ensures var e1, e2 := Crash(OTHER), Env(RequestDeletion(OTHER));
            Enabled(s, e1) && Enabled(Next(s, e1), e2) && Colliding(Next(Next(s, e1), e2))
  {
    hide TargetOf, BuildPod, Overlay;
    PlacesAreShared();
    var s2 := Next(Next(s, Crash(OTHER)), Env(RequestDeletion(OTHER)));
    assert s2.srv == s.srv.(machines := map[ONE := PLAIN, OTHER := CLAIMED.(deleting := true)]);
  }

  lemma PlacesAreShared()
    ensures TargetOf(HOSTS, ONE, Some(REF)) == Some(SHARED) && TargetOf(HOSTS, OTHER, Some(REF)) == Some(SHARED)
  {
    assert TrimSpace("hollow") == "hollow";
  }

  lemma CollidingIsReachable(strict: bool) returns (ss: seq<State>, evs: seq<Event>)
    ensures IsRun(ss, evs) && Init(ss[0]) && ss[0] == Start(strict)
    ensures Inv(ss[|evs|]) && Colliding(ss[|evs|])
  {
    hide Inv, Next, Enabled, Colliding;
    ss, evs := ReadsAreReachable(strict);
    ClaimOn(ss[|evs|], strict);
    ss, evs := Extend(ss, evs, Act(OTHER, Choice(Fine, 0, [])));
    DieAndDelete(ss[|evs|], strict);
    ss, evs := Extend(ss, evs, Crash(OTHER));
    ss, evs := Extend(ss, evs, Env(RequestDeletion(OTHER)));
    InitInv(ss[0]);
    RunKeepsInv(ss, evs, |evs|);
  }

  lemma Concatenate(ss: seq<State>, evs: seq<Event>, ss2: seq<State>, evs2: seq<Event>)
    requires IsRun(ss, evs) && IsRun(ss2, evs2) && ss2[0] == ss[|evs|]
    ensures IsRun(ss + ss2[1..], evs + evs2)
    ensures (ss + ss2[1..])[0] == ss[0] && (ss + ss2[1..])[|evs + evs2|] == ss2[|evs2|]
  {
    var all, events := ss + ss2[1..], evs + evs2;
    forall i | 0 <= i < |events| ensures Enabled(all[i], events[i]) && all[i + 1] == Next(all[i], events[i]) {
      if i < |evs| {
        assert Enabled(ss[i], evs[i]) && ss[i + 1] == Next(ss[i], evs[i]);
      } else {
        var n := i - |evs|;
        assert all[i] == ss2[n] && all[i + 1] == ss2[n + 1] && events[i] == evs2[n];
      }
    }
  }

  lemma {:induction false} OthersKeepViewThroughout(ss: seq<State>, evs: seq<Event>, j: Key, k: Key, n: nat)
    requires IsRun(ss, evs) && Inv(ss[0]) && j != k && n <= |evs|
    requires forall i :: 0 <= i < n ==> !evs[i].Env? && evs[i].k == j
    ensures SameView(ss[0].srv, ss[n].srv, k)
  {
    hide Inv, Enabled, Next;
    if n > 0 {
      OthersKeepViewThroughout(ss, evs, j, k, n - 1);
      RunKeepsInv(ss, evs, n - 1);
      OthersKeepView(ss[n - 1], evs[n - 1], k);
    }
  }

  /** From there on `ONE` may become Ready before `OTHER` is cleaned up. */
  lemma ReadyCollidingIsReachable(strict: bool) returns (ss: seq<State>, evs: seq<Event>)
    ensures IsRun(ss, evs) && Init(ss[0])
    ensures var srv := ss[|evs|].srv;
            && ServerInv(srv) && Doomed(srv, OTHER) && Ready(srv, ONE) && !srv.machines[ONE].deleting
            && Place(srv, ONE, srv.machines[ONE]) == Some(SHARED) && Place(srv, OTHER, srv.machines[OTHER]) == Some(SHARED)
  {
    hide Enabled, Next, Init, ScriptOk, Go, ServerInv;
    ss, evs := CollidingIsReachable(strict);
    var s := ss[|evs|];
    var script := LostPatchIsNeverRepaired(s.srv, ONE, OwnerPatch);
    var ss2, evs2 := GoIsARun(s, ONE, script);
    GoKeepsPlace(s.srv, ONE, Idle, script);
    OthersKeepViewThroughout(ss2, evs2, ONE, OTHER, |evs2|);
    Concatenate(ss, evs, ss2, evs2);
    RunKeepsInv(ss2, evs2, |evs2|);
    ss, evs := ss + ss2[1..], evs + evs2;
  }
}
