/** The KubemarkMachineTemplate controller: capacity computed from the options, patched only when it differs
    (controllers/kubemarkmachinetemplate_controller.go). */
module Template {
  import opened Common
  import opened ExtendedResources
  import opened HollowPod

  datatype MachineTemplate = MachineTemplate(options: Option<ResourceList>, capacity: Option<ResourceList>)

  /** How the status patch ends; a failing patch may have been carried out all the same. */
  datatype PatchReply = Patched | Failed(applied: bool) | NotFound

  predicate Takes(reply: PatchReply) {
    reply.Patched? || (reply.Failed? && reply.applied)
  }

  predicate OutOfDate(t: MachineTemplate) {
    t.options.Some? && t.capacity != Some(Overlay(t.options))
  }

  datatype TemplateEvent = Edit(options: Option<ResourceList>) | Reconcile(getFails: bool, reply: PatchReply)

  /** A user's edit, or one reconcile, of the stored template. */
  function Step(t: MachineTemplate, e: TemplateEvent): MachineTemplate {
    match e
    case Edit(options) => t.(options := options)
    case Reconcile(getFails, reply) =>
      if !getFails && OutOfDate(t) && Takes(reply) then t.(capacity := Some(Overlay(t.options))) else t
  }

  class KubemarkMachineTemplateReconciler {
    /** The template on the server, if there is one. */
    var stored: Option<MachineTemplate>

    /** The loop that copies the resources into a fresh capacity list, in any order. */
    method CopyCapacity(resources: ResourceList) returns (capacity: ResourceList)
      ensures capacity == resources
    {
      capacity := map[];
      var remaining := resources.Keys;
      while remaining != {}
        invariant remaining <= resources.Keys
        invariant capacity.Keys == resources.Keys - remaining
        invariant forall k :: k in capacity ==> capacity[k] == resources[k]
        decreases |remaining|
      {
        var k :| k in remaining;
        capacity := capacity[k := resources[k]];
        remaining := remaining - {k};
      }
    }

    /** `issued`: a patch was sent. */
    method Reconcile(getFails: bool, reply: PatchReply) returns (issued: bool, failed: bool)
      modifies this
      ensures issued <==> !getFails && old(stored).Some? && OutOfDate(old(stored).value)
      ensures stored == if old(stored).None? then None
                        else Some(Step(old(stored).value, TemplateEvent.Reconcile(getFails, reply)))
      ensures failed <==> (getFails || (issued && reply.Failed?))
      ensures old(stored).Some? ==>
                && stored.Some? && stored.value.options == old(stored).value.options
                && (stored == old(stored) ||
                    (!getFails && reply in {Patched, Failed(true)} && stored.value.options.Some? &&
                     stored.value.capacity == Some(Overlay(stored.value.options))))
      ensures old(stored).Some? && old(stored).value.options.Some? && !getFails && reply.Patched? ==>
                stored.value.capacity == Some(Overlay(old(stored).value.options))
    {
      issued, failed := false, false;
      if getFails {
        return false, true;
      }
      if stored.None? {
        return;
      }
      var machineTemplate := stored.value;
      var updateRequired := false;
      if machineTemplate.options.Some? {
        var extendedResources := GetKubemarkExtendedResources(machineTemplate.options);
        var capacity := CopyCapacity(extendedResources);
        if machineTemplate.capacity != Some(capacity) {
          machineTemplate := machineTemplate.(capacity := Some(capacity));
          updateRequired := true;
        }
      }
      if updateRequired {
        issued := true;
        if Takes(reply) {
          stored := Some(machineTemplate);
        }
        failed := reply.Failed?;
      }
    }
  }

  // ---------- sequences of edits and reconciles ----------

  function Steps(t: MachineTemplate, es: seq<TemplateEvent>): MachineTemplate {
    if es == [] then t else Step(Steps(t, es[..|es| - 1]), es[|es| - 1])
  }

  /** The reconcile looked at the options and left the server agreeing with them. */
  predicate Succeeds(t: MachineTemplate, e: TemplateEvent) {
    e.Reconcile? && !e.getFails && t.options.Some? && (OutOfDate(t) ==> Takes(e.reply))
  }

  /** The last non-nil options that a reconcile succeeded on. */
  function LastApplied(t: MachineTemplate, es: seq<TemplateEvent>): Option<ResourceList> {
    if es == [] then None
    else
      var before := Steps(t, es[..|es| - 1]);
      if Succeeds(before, es[|es| - 1]) then before.options else LastApplied(t, es[..|es| - 1])
  }

  /** The capacity is the overlay of the last options successfully reconciled, and untouched before the
      first; going back to nil options leaves it as it was. */
  lemma {:induction false} CapacityIsTheLastApplied(t: MachineTemplate, es: seq<TemplateEvent>)
    ensures Steps(t, es).capacity == match LastApplied(t, es)
                                     case None => t.capacity
                                     case Some(m) => Some(Overlay(Some(m)))
  {
    if es != [] {
      CapacityIsTheLastApplied(t, es[..|es| - 1]);
    }
  }

  /** After a success a second reconcile of the same options sends nothing and changes nothing. */
  lemma {:induction false} OneStepFixpoint(t: MachineTemplate, es: seq<TemplateEvent>, first: TemplateEvent, again: TemplateEvent)
    requires Succeeds(Steps(t, es), first) && again.Reconcile?
    ensures !OutOfDate(Steps(t, es + [first]))
    ensures Steps(t, es + [first, again]) == Steps(t, es + [first])
  {
    assert (es + [first])[..|es|] == es;
    assert (es + [first, again])[..|es| + 1] == es + [first];
  }

  /** The capacity that a successful template reconcile shows is what the flag of a machine with the same
      options says, whatever the iteration orders, exactly when names and quantities are free of separators. */
  lemma CapacityAgreesWithTheFlag(t: MachineTemplate, e: TemplateEvent, name: string, order: seq<string>)
    requires Succeeds(t, e) && IsOrder(order, Overlay(t.options))
    ensures var args := Args(name, Supported, t.options, order);
            var capacity := Step(t, e).capacity;
            && capacity.Some?
            && (ParseFlag(args[|args| - 1]) == Ok(Some(Texts(capacity.value))) <==> Clean(Overlay(t.options)))
  {
    assert CPU in Overlay(t.options);
    RoundTripsExactlyWhenClean(order, Overlay(t.options));
  }
}
