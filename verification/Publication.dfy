/** When a Ready bit on the server can be trusted: exactly if no reconcile turned it on after losing one of the
    provider IDs that it published before. */
module Publication {
  import opened Common
  import opened ExtendedResources
  import opened KubemarkCluster
  import opened HollowPod
  import opened Protocol
  import opened Safety

  predicate OwnerPublished(srv: Server, k: Key) {
    k in srv.owners && srv.owners[k].providerID == Some(ProviderID(k))
  }

  predicate MachinePublished(srv: Server, k: Key) {
    k in srv.machines && srv.machines[k].providerID == Some(ProviderID(k))
  }

  predicate TrustedMachine(srv: Server, k: Key) {
    k in srv.machines && srv.machines[k].ready ==> OwnerPublished(srv, k) && MachinePublished(srv, k)
  }

  /** The event is a deferred patch of `k`'s reconcile that should have written a provider ID, to the owner
      Machine or to the KubemarkMachine, and did not. */
  predicate LosesProviderID(s: State, ev: Event, k: Key) {
    && ev.Act? && ev.k == k
    && var w, o := W(s, k), ev.choice.outcome;
       || (w.DeferMachine? && w.l.owner.providerID != w.l.osnap.providerID && !Lands(o))
       || (w.DeferMeta? && w.l.km.providerID != w.l.snap.providerID
           && !(Lands(o) && AcceptsMeta(s.srv, k, w.l.snap, w.l.km)))
  }

  /** After `n` events a reconcile of `k` is in progress that has lost a provider ID. */
  ghost predicate Tainted(ss: seq<State>, evs: seq<Event>, k: Key, n: nat)
    requires IsRun(ss, evs) && n <= |evs|
  {
    && n > 0 && !W(ss[n], k).Idle?
    && (LosesProviderID(ss[n - 1], evs[n - 1], k) || Tainted(ss, evs, k, n - 1))
  }

  /** The closing status patch turns Ready on. */
  predicate TurnsReady(s: State, ev: Event, k: Key) {
    && ev.Act? && ev.k == k && Lands(ev.choice.outcome)
    && var w := W(s, k);
       w.DeferStatus? && w.l.km.ready && !w.l.snap.ready
  }

  /** Event `n` turns Ready on in a reconcile that has lost a provider ID. */
  ghost predicate PublishesAmiss(ss: seq<State>, evs: seq<Event>, k: Key, n: nat)
    requires IsRun(ss, evs) && n < |evs|
  {
    Tainted(ss, evs, k, n) && TurnsReady(ss[n], evs[n], k)
  }

  // ---------- what a reconcile has published on its way to the status patch ----------

  /** `tainted` tells exactly whether something that should be published by now is not. */
  predicate TaintTells(srv: Server, k: Key, w: Worker, tainted: bool) {
    match w
    case DeferMeta(l) =>
      if l.km.ready && !l.snap.ready then k in srv.owners && (tainted <==> !OwnerPublished(srv, k)) else !tainted
    case DeferStatus(l) =>
      if l.km.ready && !l.snap.ready
      then k in srv.owners && (tainted <==> !(OwnerPublished(srv, k) && MachinePublished(srv, k)))
      else !tainted
    case _ => !tainted
  }

  lemma OwnStepKeepsTaint(s: State, k: Key, c: Choice, tainted: bool)
    requires Inv(s) && Enabled(s, Act(k, c)) && TaintTells(s.srv, k, W(s, k), tainted)
    ensures var s' := Next(s, Act(k, c));
            TaintTells(s'.srv, k, W(s', k), !W(s', k).Idle? && (LosesProviderID(s, Act(k, c), k) || tainted))
  {
    hide TargetOf, BuildPod, Overlay;
    assert WorkerInv(s.srv, k, W(s, k));
  }

  lemma EnvKeepsTaint(s: State, e: EnvEvent, k: Key, tainted: bool)
    requires Inv(s) && EnvEnabled(s, e) && TaintTells(s.srv, k, W(s, k), tainted)
    ensures TaintTells(EnvStep(s.srv, e), k, W(s, k), tainted)
  {
    assert WorkerInv(s.srv, k, W(s, k));
  }

  lemma StepKeepsTaint(s: State, ev: Event, k: Key, tainted: bool)
    requires Inv(s) && Enabled(s, ev) && TaintTells(s.srv, k, W(s, k), tainted)
    ensures var s' := Next(s, ev);
            TaintTells(s'.srv, k, W(s', k), !W(s', k).Idle? && (LosesProviderID(s, ev, k) || tainted))
  {
    match ev
    case Act(j, c) =>
      if j == k { OwnStepKeepsTaint(s, k, c, tainted); }
      else { OthersLeaveAlone(s, j, c, k); }
    case Crash(_) =>
    case Env(e) => EnvKeepsTaint(s, e, k, tainted);
  }

  lemma OthersLeaveAlone(s: State, j: Key, c: Choice, k: Key)
    requires Inv(s) && Enabled(s, Act(j, c)) && j != k
    ensures var s' := Next(s, Act(j, c));
            && (k in s.srv.machines <==> k in s'.srv.machines)
            && (k in s.srv.machines ==> s.srv.machines[k] == s'.srv.machines[k])
            && (k in s.srv.owners <==> k in s'.srv.owners)
            && (k in s.srv.owners ==> s.srv.owners[k] == s'.srv.owners[k])
            && W(s, k) == W(s', k)
  {
    assert WorkerInv(s.srv, j, W(s, j));
    WorkerKeepsInv(s.srv, j, W(s, j), c);
    OthersAreTheSame(s.srv, Next(s, Act(j, c)).srv, j, k);
  }

  lemma {:induction false} RunKeepsTaint(ss: seq<State>, evs: seq<Event>, k: Key, n: nat)
    requires IsRun(ss, evs) && Inv(ss[0]) && W(ss[0], k).Idle? && n <= |evs|
    ensures TaintTells(ss[n].srv, k, W(ss[n], k), Tainted(ss, evs, k, n))
  {
    if n > 0 {
      RunKeepsTaint(ss, evs, k, n - 1);
      RunKeepsInv(ss, evs, n - 1);
      StepKeepsTaint(ss[n - 1], evs[n - 1], k, Tainted(ss, evs, k, n - 1));
    }
  }

  // ---------- when Ready can be trusted ----------

  /** Ready on the server, with a provider ID missing. */
  predicate Mistaken(srv: Server, k: Key) {
    && k in srv.machines && srv.machines[k].ready && k in srv.owners
    && !(OwnerPublished(srv, k) && MachinePublished(srv, k))
  }

  lemma OwnStepKeepsTrust(s: State, k: Key, c: Choice, tainted: bool)
    requires Inv(s) && Enabled(s, Act(k, c)) && TaintTells(s.srv, k, W(s, k), tainted) && TrustedMachine(s.srv, k)
    ensures var s' := Next(s, Act(k, c));
            if tainted && TurnsReady(s, Act(k, c), k) then Mistaken(s'.srv, k) else TrustedMachine(s'.srv, k)
  {
    hide TargetOf, BuildPod, Overlay;
    assert WorkerInv(s.srv, k, W(s, k));
  }

  lemma StepKeepsTrust(s: State, ev: Event, k: Key, tainted: bool)
    requires Inv(s) && Enabled(s, ev) && TaintTells(s.srv, k, W(s, k), tainted) && TrustedMachine(s.srv, k)
    ensures if tainted && TurnsReady(s, ev, k) then Mistaken(Next(s, ev).srv, k) else TrustedMachine(Next(s, ev).srv, k)
  {
    hide TaintTells, WorkerInv, ServerInv;
    match ev
    case Act(j, c) =>
      if j == k { OwnStepKeepsTrust(s, k, c, tainted); } else { OthersLeaveAlone(s, j, c, k); }
    case Crash(_) =>
    case Env(_) =>
  }

  lemma OwnStepKeepsMistake(s: State, k: Key, c: Choice)
    requires Inv(s) && Enabled(s, Act(k, c)) && Mistaken(s.srv, k) && k in Next(s, Act(k, c)).srv.machines
    ensures Mistaken(Next(s, Act(k, c)).srv, k)
  {
    hide TargetOf, BuildPod, Overlay;
    assert WorkerInv(s.srv, k, W(s, k));
  }

  lemma StepKeepsMistake(s: State, ev: Event, k: Key)
    requires Inv(s) && Enabled(s, ev) && Mistaken(s.srv, k) && k in Next(s, ev).srv.machines
    ensures Mistaken(Next(s, ev).srv, k)
  {
    hide WorkerInv, ServerInv;
    match ev
    case Act(j, c) =>
      if j == k { OwnStepKeepsMistake(s, k, c); } else { OthersLeaveAlone(s, j, c, k); }
    case Crash(_) =>
    case Env(_) =>
  }

  /** Over any stretch of a run: whatever the server shows as Ready has its provider ID on itself and on its
      owner Machine, exactly if Ready was never turned on in a reconcile that had lost a provider ID. Lost
      patches do no harm if the same reconcile then crashes or loses its status patch too. */
  lemma {:induction false} ReadyIsTrustedExactly(ss: seq<State>, evs: seq<Event>, k: Key, n: nat)
    requires IsRun(ss, evs) && Inv(ss[0]) && W(ss[0], k).Idle? && TrustedMachine(ss[0].srv, k) && n <= |evs|
    ensures (forall i :: 0 <= i <= n ==> TrustedMachine(ss[i].srv, k)) <==>
              (forall i :: 0 <= i < n ==> !PublishesAmiss(ss, evs, k, i))
    ensures (forall i :: 0 <= i <= n ==> TrustedMachine(ss[i].srv, k)) || exists j :: 0 <= j <= n && Mistaken(ss[j].srv, k)
  {
    hide TaintTells, Inv, Next, Enabled, Tainted, TurnsReady;
    if n > 0 {
      ReadyIsTrustedExactly(ss, evs, k, n - 1);
      RunKeepsTaint(ss, evs, k, n - 1);
      RunKeepsInv(ss, evs, n - 1);
      if TrustedMachine(ss[n - 1].srv, k) {
        StepKeepsTrust(ss[n - 1], evs[n - 1], k, Tainted(ss, evs, k, n - 1));
        assert PublishesAmiss(ss, evs, k, n - 1) <==> !TrustedMachine(ss[n].srv, k);
      }
    }
  }

  /** A machine that is Ready without its provider IDs stays so for the rest of its life, whatever reconciles
      and edits follow; nobody else writes provider IDs. */
  lemma {:induction false} MistakesAreNeverRepaired(ss: seq<State>, evs: seq<Event>, k: Key, i: nat, n: nat)
    requires IsRun(ss, evs) && Inv(ss[0]) && i <= n <= |evs|
    requires Mistaken(ss[i].srv, k) && forall j :: i <= j <= n ==> k in ss[j].srv.machines
    ensures Mistaken(ss[n].srv, k)
  {
    hide Inv, Enabled, Mistaken;
    if i < n {
      MistakesAreNeverRepaired(ss, evs, k, i, n - 1);
      RunKeepsInv(ss, evs, n - 1);
      assert ss[n] == Next(ss[n - 1], evs[n - 1]);
      StepKeepsMistake(ss[n - 1], evs[n - 1], k);
    }
  }

  /** The scheme and the name of the machine are published, on both objects. */
  predicate BothCarry(srv: Server, k: Key, id: string) {
    && k in srv.machines && srv.machines[k].providerID == Some(id)
    && k in srv.owners && srv.owners[k].providerID == Some(id)
  }

  /** From an empty server on: in every state whatever is Ready carries, on itself and on its owner Machine, the
      provider ID made of the scheme and the machine's name, exactly if Ready was never turned on in a reconcile
      that had lost one of the two. */
  lemma ReadyIsPublishedLast(ss: seq<State>, evs: seq<Event>, k: Key, n: nat)
    requires IsRun(ss, evs) && Init(ss[0]) && n <= |evs|
    ensures (forall i :: 0 <= i <= n && Ready(ss[i].srv, k) ==>
               BothCarry(ss[i].srv, k, "kubemark://" + k.name))
            <==> (forall i :: 0 <= i < n ==> !PublishesAmiss(ss, evs, k, i))
  {
    hide PublishesAmiss;
    InitInv(ss[0]);
    ReadyIsTrustedExactly(ss, evs, k, n);
    assert forall i :: 0 <= i <= n ==>
      (TrustedMachine(ss[i].srv, k) <==>
         (Ready(ss[i].srv, k) ==> BothCarry(ss[i].srv, k, "kubemark://" + k.name)));
  }

  /** Provider IDs tell machines apart exactly as their names do: those of one name in different namespaces carry
      the same one. */
  lemma ProviderIDsAreNames(ss: seq<State>, evs: seq<Event>, n: nat, j: Key, k: Key, idJ: string, idK: string)
    requires IsRun(ss, evs) && Init(ss[0]) && n <= |evs|
    requires forall i :: 0 <= i < n ==> !PublishesAmiss(ss, evs, j, i) && !PublishesAmiss(ss, evs, k, i)
    requires Ready(ss[n].srv, j) && ss[n].srv.machines[j].providerID == Some(idJ)
    requires Ready(ss[n].srv, k) && ss[n].srv.machines[k].providerID == Some(idK)
    ensures idJ == idK <==> j.name == k.name
  {
    hide PublishesAmiss, Next, Enabled;
    ReadyIsPublishedLast(ss, evs, j, n);
    ReadyIsPublishedLast(ss, evs, k, n);
    assert BothCarry(ss[n].srv, j, "kubemark://" + j.name) && BothCarry(ss[n].srv, k, "kubemark://" + k.name);
    assert idJ[11..] == j.name && idK[11..] == k.name;
  }
}
