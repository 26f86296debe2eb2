/** Deep copies of the API types, on the heap: pointers, slices and maps are objects, embedded structs are
    values (api/v1alpha4/zz_generated.deepcopy.go). */
module DeepCopy {
  import opened Common
  import opened ExtendedResources

  // ---------- what the Go types hold ----------

  /** A *string or *HostPathType. */
  class StringCell {
    var value: string

    constructor (value: string)
      ensures this.value == value
    {
      this.value := value;
    }
  }

  datatype ObjectReference = ObjectReference(kind: string, namespace: string, name: string)

  class ReferenceCell {
    var ref: ObjectReference

    constructor (ref: ObjectReference)
      ensures this.ref == ref
    {
      this.ref := ref;
    }
  }

  /** A Go map from resource names to quantities; a null reference is the nil map. */
  class ResourceMap {
    var entries: ResourceList

    constructor ()
      ensures entries == map[]
    {
      entries := map[];
    }
  }

  datatype Condition = Condition(kind: string, status: string)

  datatype Mount = Mount(name: string, containerPath: string, hostPath: string, kind: StringCell?)

  datatype Spec = Spec(providerID: StringCell?, extraMounts: array?<Mount>, options: ResourceMap?, secretRef: ReferenceCell?)

  datatype Status = Status(ready: bool, conditions: array?<Condition>)

  datatype Machine = Machine(meta: string, spec: Spec, status: Status)

  const ZERO := Machine("", Spec(null, null, null, null), Status(false, null))

  // ---------- the same, seen as values ----------

  datatype MountView = MountView(name: string, containerPath: string, hostPath: string, kind: Option<string>)

  datatype SpecView = SpecView(
    providerID: Option<string>,
    extraMounts: Option<seq<MountView>>,
    options: Option<ResourceList>,
    secretRef: Option<ObjectReference>)

  datatype MachineView = MachineView(meta: string, spec: SpecView, ready: bool, conditions: Option<seq<Condition>>)

  datatype ListView = ListView(listMeta: string, items: Option<seq<MachineView>>)

  ghost function OfCell(c: StringCell?): (r: set<object>)
  {
    if c == null then {} else {c}
  }

  ghost function ViewCell(c: StringCell?): Option<string>
    reads c
  {
    if c == null then None else Some(c.value)
  }

  ghost function ViewMount(m: Mount): MountView
    reads m.kind
  {
    MountView(m.name, m.containerPath, m.hostPath, ViewCell(m.kind))
  }

  /** The mount array and the cells in it. */
  ghost function OfMounts(a: array?<Mount>): set<object>
    reads a
  {
    if a == null then {} else {a} + set i | 0 <= i < a.Length && a[i].kind != null :: a[i].kind
  }

  ghost function ViewMounts(a: array?<Mount>): (r: Option<seq<MountView>>)
    reads OfMounts(a)
    ensures a == null <==> r == None
    ensures a != null ==> |r.value| == a.Length && forall i :: 0 <= i < a.Length ==> r.value[i] == ViewMount(a[i])
  {
    if a == null then None
    else Some(seq(a.Length, i requires 0 <= i < a.Length reads OfMounts(a) => ViewMount(a[i])))
  }

  ghost function OfSpec(s: Spec): set<object>
    reads s.extraMounts
  {
    OfCell(s.providerID) + OfMounts(s.extraMounts)
    + (if s.options == null then {} else {s.options})
    + (if s.secretRef == null then {} else {s.secretRef})
  }

  ghost function ViewSpec(s: Spec): SpecView
    reads OfSpec(s)
  {
    SpecView(ViewCell(s.providerID), ViewMounts(s.extraMounts),
             if s.options == null then None else Some(s.options.entries),
             if s.secretRef == null then None else Some(s.secretRef.ref))
  }

  ghost function OfMachine(m: Machine): (r: set<object>)
    reads m.spec.extraMounts
    ensures m.spec.extraMounts != null ==> m.spec.extraMounts in r
  {
    OfSpec(m.spec) + (if m.status.conditions == null then {} else {m.status.conditions})
  }

  ghost function ViewMachine(m: Machine): MachineView
    reads OfMachine(m)
  {
    MachineView(m.meta, ViewSpec(m.spec), m.status.ready,
                if m.status.conditions == null then None else Some(m.status.conditions[..]))
  }

  /** Everything that the first `n` machines of the array point to. */
  ghost function OfFirst(a: array<Machine>, n: nat): (r: set<object>)
    requires n <= a.Length
    reads a, set i | 0 <= i < a.Length :: a[i].spec.extraMounts
    ensures forall i :: 0 <= i < n ==> OfMachine(a[i]) <= r
    ensures forall o :: o in r ==> exists i :: 0 <= i < n && o in OfMachine(a[i])
  {
    hide OfMachine;
    if n == 0 then {} else OfFirst(a, n - 1) + OfMachine(a[n - 1])
  }

  ghost function OfItems(a: array?<Machine>): (r: set<object>)
    reads a, if a == null then {} else set i | 0 <= i < a.Length :: a[i].spec.extraMounts
    ensures if a == null then r == {} else a in r && forall i :: 0 <= i < a.Length ==> OfMachine(a[i]) <= r
  {
    if a == null then {} else {a} + OfFirst(a, a.Length)
  }

  ghost function ZeroItems(n: nat): Option<seq<MachineView>> {
    Some(seq(n, _ => MachineView("", SpecView(None, None, None, None), false, None)))
  }

  ghost function ViewItems(a: array?<Machine>): (r: Option<seq<MachineView>>)
    reads OfItems(a)
    ensures a == null <==> r == None
    ensures a != null ==> |r.value| == a.Length && forall i :: 0 <= i < a.Length ==> r.value[i] == ViewMachine(a[i])
  {
    if a == null then None
    else Some(seq(a.Length, i requires 0 <= i < a.Length reads OfItems(a) => ViewMachine(a[i])))
  }

  // ---------- deep equality ----------

  ghost predicate EqualCells(a: StringCell?, b: StringCell?)
    reads a, b
  {
    if a == null || b == null then a == b else a.value == b.value
  }

  ghost predicate EqualMounts(a: array?<Mount>, b: array?<Mount>)
    reads OfMounts(a), OfMounts(b)
  {
    if a == null || b == null then a == b
    else
      && a.Length == b.Length
      && forall i :: 0 <= i < a.Length ==>
           && a[i].name == b[i].name && a[i].containerPath == b[i].containerPath && a[i].hostPath == b[i].hostPath
           && EqualCells(a[i].kind, b[i].kind)
  }

  /** The machines cannot be told apart but by the objects that hold their parts. */
  ghost predicate DeepEqual(a: Machine, b: Machine)
    reads OfMachine(a), OfMachine(b)
  {
    && a.meta == b.meta && a.status.ready == b.status.ready
    && EqualCells(a.spec.providerID, b.spec.providerID)
    && EqualMounts(a.spec.extraMounts, b.spec.extraMounts)
    && (if a.spec.options == null || b.spec.options == null then a.spec.options == b.spec.options
        else a.spec.options.entries == b.spec.options.entries)
    && (if a.spec.secretRef == null || b.spec.secretRef == null then a.spec.secretRef == b.spec.secretRef
        else a.spec.secretRef.ref == b.spec.secretRef.ref)
    && (var c, d := a.status.conditions, b.status.conditions;
        if c == null || d == null then c == d
        else c.Length == d.Length && forall i :: 0 <= i < c.Length ==> c[i] == d[i])
  }

  lemma MountViewsTellAll(a: array?<Mount>, b: array?<Mount>)
    ensures ViewMounts(a) == ViewMounts(b) <==> EqualMounts(a, b)
  {
    if a != null && b != null {
      if EqualMounts(a, b) {
        assert ViewMounts(a).value == ViewMounts(b).value;
      }
      if ViewMounts(a) == ViewMounts(b) {
        forall i | 0 <= i < a.Length ensures ViewMount(a[i]) == ViewMount(b[i]) {
          assert ViewMounts(a).value[i] == ViewMounts(b).value[i];
        }
      }
    }
  }

  lemma ConditionsTellAll(c: array<Condition>, d: array<Condition>)
    ensures c[..] == d[..] <==> c.Length == d.Length && forall i :: 0 <= i < c.Length ==> c[i] == d[i]
  {
    assert |c[..]| == c.Length && |d[..]| == d.Length;
    assert forall i :: 0 <= i < c.Length ==> c[..][i] == c[i];
    assert forall i :: 0 <= i < d.Length ==> d[..][i] == d[i];
  }

  /** Machines look alike exactly if they are deeply equal, with nil and empty kept apart. */
  lemma ViewsTellAll(a: Machine, b: Machine)
    ensures ViewMachine(a) == ViewMachine(b) <==> DeepEqual(a, b)
  {
    hide ViewMounts, EqualMounts;
    MountViewsTellAll(a.spec.extraMounts, b.spec.extraMounts);
    if a.status.conditions != null && b.status.conditions != null {
      ConditionsTellAll(a.status.conditions, b.status.conditions);
    }
  }

  // ---------- framing ----------

  lemma MachineIsAllocated(m: Machine)
    ensures forall o :: o in OfMachine(m) ==> allocated(o)
  {
  }

  lemma {:induction false} FirstAreAllocated(a: array<Machine>, n: nat)
    requires n <= a.Length
    ensures forall o :: o in OfFirst(a, n) ==> allocated(o)
  {
    hide OfMachine;
    if n > 0 {
      FirstAreAllocated(a, n - 1);
      MachineIsAllocated(a[n - 1]);
    }
  }

  /** Nothing that the machine points to has changed. */
  twostate predicate Kept(m: Machine)
    reads OfMachine(m)
  {
    var s := m.spec;
    && (s.providerID != null ==> unchanged(s.providerID))
    && (s.extraMounts != null ==>
          && unchanged(s.extraMounts)
          && forall i :: 0 <= i < s.extraMounts.Length ==> s.extraMounts[i].kind != null ==> unchanged(s.extraMounts[i].kind))
    && (s.options != null ==> unchanged(s.options))
    && (s.secretRef != null ==> unchanged(s.secretRef))
    && (m.status.conditions != null ==> unchanged(m.status.conditions))
  }

  twostate lemma MachineLooksTheSame(m: Machine)
    requires forall o :: o in old(OfMachine(m)) && old(allocated(o)) ==> unchanged(o)
    ensures OfMachine(m) == old(OfMachine(m)) && ViewMachine(m) == old(ViewMachine(m))
  {
    var a := m.spec.extraMounts;
    if a != null {
      assert a in old(OfMachine(m));
      assert unchanged(a);
      forall i | 0 <= i < a.Length && a[i].kind != null ensures unchanged(a[i].kind) {
        assert a[i].kind in old(OfMounts(a));
      }
    }
    KeptMachineLooksTheSame(m);
  }

  twostate lemma KeptMachineLooksTheSame(m: Machine)
    requires Kept(m)
    ensures OfMachine(m) == old(OfMachine(m)) && ViewMachine(m) == old(ViewMachine(m))
  {
    var a := m.spec.extraMounts;
    if a != null {
      forall i | 0 <= i < a.Length ensures ViewMount(a[i]) == old(ViewMount(a[i])) {
        assert a[i].kind != null ==> unchanged(a[i].kind);
      }
      assert ViewMounts(a).value == old(ViewMounts(a).value);
    }
  }

  // ---------- the generated methods ----------

  method DeepCopyCell(source: StringCell?) returns (out: StringCell?)
    ensures fresh(OfCell(out)) && ViewCell(out) == ViewCell(source)
  {
    out := null;
    if source != null {
      out := new StringCell(source.value);
    }
  }

  /** The range loop over a map, in any order. */
  method DeepCopyResources(source: ResourceMap?) returns (out: ResourceMap?)
    ensures source == null <==> out == null
    ensures source != null ==> fresh(out) && out.entries == source.entries
  {
    if source == null {
      return null;
    }
    out := new ResourceMap();
    var remaining := source.entries.Keys;
    while remaining != {}
      invariant fresh(out) && remaining <= source.entries.Keys
      invariant out.entries.Keys == source.entries.Keys - remaining
      invariant forall k :: k in out.entries ==> out.entries[k] == source.entries[k]
      decreases |remaining|
    {
      var k :| k in remaining;
      out.entries := out.entries[k := source.entries[k]];
      remaining := remaining - {k};
    }
  }

  method DeepCopyMount(source: Mount) returns (out: Mount)
    ensures fresh(OfCell(out.kind)) && ViewMount(out) == ViewMount(source)
  {
    var kind := DeepCopyCell(source.kind);
    out := source.(kind := kind);
  }

  method DeepCopyMounts(source: array?<Mount>) returns (out: array?<Mount>)
    ensures fresh(OfMounts(out)) && ViewMounts(out) == ViewMounts(source)
    ensures out != null ==> forall i, j :: 0 <= i < j < out.Length && out[i].kind != null ==> out[i].kind != out[j].kind
  {
    if source == null {
      return null;
    }
    out := new Mount[source.Length];
    for i := 0 to source.Length
      invariant fresh(out)
      invariant forall j :: 0 <= j < i ==> fresh(OfCell(out[j].kind)) && ViewMount(out[j]) == ViewMount(source[j])
      invariant forall a, b :: 0 <= a < b < i && out[a].kind != null ==> out[a].kind != out[b].kind
    {
      var m := DeepCopyMount(source[i]);
      out[i] := m;
    }
    assert ViewMounts(out).value == ViewMounts(source).value;
  }

  method DeepCopyReference(source: ReferenceCell?) returns (out: ReferenceCell?)
    ensures source == null <==> out == null
    ensures source != null ==> fresh(out) && out.ref == source.ref
  {
    out := null;
    if source != null {
      out := new ReferenceCell(source.ref);
    }
  }

  method DeepCopySpec(source: Spec) returns (out: Spec)
    ensures fresh(OfSpec(out)) && ViewSpec(out) == ViewSpec(source)
  {
    // the flat pointers before the mounts, which the generated code copies second
    var providerID := DeepCopyCell(source.providerID);
    var options := DeepCopyResources(source.options);
    var secretRef := DeepCopyReference(source.secretRef);
    var extraMounts := DeepCopyMounts(source.extraMounts);
    out := Spec(providerID, extraMounts, options, secretRef);
  }

  method DeepCopyConditions(source: array?<Condition>) returns (out: array?<Condition>)
    ensures source == null <==> out == null
    ensures source != null ==> fresh(out) && out[..] == source[..]
  {
    if source == null {
      return null;
    }
    out := new Condition[source.Length];
    for i := 0 to source.Length
      invariant fresh(out) && out[..i] == source[..i]
    {
      out[i] := source[i];
    }
    assert out[..] == out[..source.Length] && source[..] == source[..source.Length];
  }

  method DeepCopyMachine(source: Machine) returns (out: Machine)
    ensures fresh(OfMachine(out)) && ViewMachine(out) == ViewMachine(source)
  {
    var conditions := DeepCopyConditions(source.status.conditions);
    var spec := DeepCopySpec(source.spec);
    out := Machine(source.meta, spec, Status(source.status.ready, conditions));
  }

  // ---------- lists ----------

  /** The machine and everything it points to are as they were. */
  twostate predicate Same(m: Machine)
    reads OfMachine(m)
  {
    OfMachine(m) == old(OfMachine(m)) && ViewMachine(m) == old(ViewMachine(m))
  }

  /** A copy made while the first `n` slots of `out` are filled, which stay as they are. */
  method DeepCopyBeside(source: Machine, ghost out: array<Machine>, ghost n: nat) returns (m: Machine)
    requires n <= out.Length
    ensures fresh(OfMachine(m)) && ViewMachine(m) == old(ViewMachine(source))
    ensures forall j :: 0 <= j < n ==> Same(out[j])
  {
    m := DeepCopyMachine(source);
    KeptMachineLooksTheSame(source);
    forall j | 0 <= j < n ensures Same(out[j]) {
      KeptMachineLooksTheSame(out[j]);
    }
  }

  method Fill(out: array<Machine>, i: nat, m: Machine)
    requires i < out.Length
    modifies out
    ensures out[i] == m && forall j :: 0 <= j < out.Length && j != i ==> out[j] == old(out[j])
    ensures Same(m)
    ensures forall j :: 0 <= j < i ==> Same(out[j])
  {
    out[i] := m;
    KeptMachineLooksTheSame(m);
    forall j | 0 <= j < i ensures Same(out[j]) {
      KeptMachineLooksTheSame(out[j]);
    }
  }

  /** The loop body: slot `i` gets its copy, the slots before it keep theirs. */
  method DeepCopyItem(source: Machine, out: array<Machine>, i: nat)
    requires i < out.Length
    modifies out
    ensures fresh(OfMachine(out[i])) && ViewMachine(out[i]) == old(ViewMachine(source))
    ensures forall j :: 0 <= j < out.Length && j != i ==> out[j] == old(out[j])
    ensures forall j :: 0 <= j < i ==> Same(out[j])
  {
    var m := DeepCopyBeside(source, out, i);
    label copied:
    Fill(out, i, m);
    forall j | 0 <= j < i ensures Same(out[j]) {
      assert OfMachine(out[j]) == old@copied(OfMachine(out[j]));
      assert ViewMachine(out[j]) == old@copied(ViewMachine(out[j]));
    }
  }

  /** The item loop; `source` may be `out` itself. */
  method DeepCopyItems(source: array<Machine>, out: array<Machine>)
    requires source.Length == out.Length
    modifies out
    ensures forall i :: 0 <= i < out.Length ==> fresh(OfMachine(out[i]))
    ensures forall i :: 0 <= i < out.Length ==> ViewMachine(out[i]) == old(ViewMachine(source[i]))
    ensures forall i, j :: 0 <= i < j < out.Length ==> OfMachine(out[i]) !! OfMachine(out[j])
  {
    hide OfMachine, ViewMachine;
    ghost var parts: seq<set<object>> := [];
    for i := 0 to source.Length
      invariant |parts| == i && forall j :: i <= j < source.Length ==> source[j] == old(source[j])
      invariant forall j :: 0 <= j < i ==> parts[j] == OfMachine(out[j]) && fresh(parts[j])
      invariant forall j :: 0 <= j < i ==> ViewMachine(out[j]) == old(ViewMachine(source[j]))
      invariant forall a, b :: 0 <= a < b < i ==> parts[a] !! parts[b]
    {
      KeptMachineLooksTheSame(source[i]);
      DeepCopyItem(source[i], out, i);
      parts := parts + [OfMachine(out[i])];
    }
  }

  twostate lemma KeptItemsLookTheSame(a: array?<Machine>)
    requires a != null ==> unchanged(a) && forall i :: 0 <= i < a.Length ==> Kept(a[i])
    ensures ViewItems(a) == old(ViewItems(a))
  {
    hide OfMachine, ViewMachine;
    if a != null {
      forall i | 0 <= i < a.Length ensures ViewMachine(a[i]) == old(ViewMachine(a[i])) {
        KeptMachineLooksTheSame(a[i]);
      }
      assert ViewItems(a).value == old(ViewItems(a)).value;
    }
  }

  twostate lemma ItemsLookTheSame(a: array?<Machine>)
    requires forall o :: o in old(OfItems(a)) && old(allocated(o)) ==> unchanged(o)
    ensures OfItems(a) == old(OfItems(a)) && ViewItems(a) == old(ViewItems(a))
    ensures a != null ==> forall i :: 0 <= i < a.Length ==> OfMachine(a[i]) == old(OfMachine(a[i]))
  {
    hide OfMachine, ViewMachine;
    if a != null {
      assert a in old(OfItems(a));
      assert unchanged(a);
      forall i | 0 <= i < a.Length
        ensures OfMachine(a[i]) == old(OfMachine(a[i])) && ViewMachine(a[i]) == old(ViewMachine(a[i]))
      {
        assert old(OfMachine(a[i])) <= old(OfItems(a));
        MachineLooksTheSame(a[i]);
      }
      assert ViewItems(a).value == old(ViewItems(a)).value;
    }
  }

  /** A new slice of zero values, as made before the copies are written into it. */
  method MakeItems(n: nat) returns (out: array<Machine>)
    ensures fresh(out) && out.Length == n && forall i :: 0 <= i < n ==> out[i] == ZERO
    ensures ViewItems(out) == ZeroItems(n)
  {
    out := new Machine[n](_ => ZERO);
    assert ViewItems(out).value == ZeroItems(n).value;
  }

  /** The same, seen as one value. */
  method DeepCopySlice(source: array<Machine>, out: array<Machine>)
    requires source.Length == out.Length
    modifies out
    ensures ViewItems(out) == old(ViewItems(source)) && fresh(OfItems(out) - {out})
    ensures forall i, j :: 0 <= i < j < out.Length ==> OfMachine(out[i]) !! OfMachine(out[j])
  {
    hide OfMachine, ViewMachine;
    DeepCopyItems(source, out);
    assert ViewItems(out).value == old(ViewItems(source)).value;
  }

  class KubemarkMachineList {
    var listMeta: string
    var items: array?<Machine>

    constructor ()
      ensures items == null
    {
      listMeta, items := "", null;
    }

    /** Every object that can be reached from the list, itself included. */
    ghost function Reach(): (r: set<object>)
      reads this, OfItems(items)
      ensures this in r && OfItems(items) <= r
    {
      OfItems(items) + {this as object}
    }

    /** The whole list as a value, nil and empty kept apart. */
    ghost function View(): (v: ListView)
      reads Reach()
    {
      ListView(listMeta, ViewItems(items))
    }

    /** The copy looks like the original; all that it reaches is new, and no two items of it share anything. A
        list copied into itself keeps its length only, for the items are read after their slots were renewed. */
    method DeepCopyInto(out: KubemarkMachineList)
      modifies out
      ensures out != this ==> out.View() == old(View())
      ensures out == this ==>
                out.View() == old(View()).(items := if old(items) == null then None else ZeroItems(old(items).Length))
      ensures fresh(out.Reach() - {out})
      ensures out.items != null ==>
                forall i, j :: 0 <= i < j < out.items.Length ==> OfMachine(out.items[i]) !! OfMachine(out.items[j])
    {
      hide OfMachine, ViewMachine, OfItems, ViewItems, ZeroItems;
      out.listMeta, out.items := listMeta, items;
      if items != null {
        var slots := MakeItems(items.Length);
        label made:
        out.items := slots;
        KeptItemsLookTheSame(old(items));
        KeptItemsLookTheSame@made(slots);
        // `items` are the new slots if the receiver is `out`
        DeepCopySlice(items, slots);
        assert out.Reach() - {out} <= OfItems(slots) - {slots} + {slots};
        out.ReachIsAllocated();
      }
    }

    /** A new list, which shares no object with anything that was there before. */
    method DeepCopy() returns (out: KubemarkMachineList)
      ensures out.View() == old(View()) && fresh(out.Reach())
      ensures out.items != null ==>
                forall i, j :: 0 <= i < j < out.items.Length ==> OfMachine(out.items[i]) !! OfMachine(out.items[j])
      ensures View() == old(View()) && Reach() == old(Reach()) && Reach() !! out.Reach()
    {
      hide OfMachine, ViewMachine, Reach, View;
      ReachIsAllocated();
      out := new KubemarkMachineList();
      LooksTheSame();
      DeepCopyInto(out);
      out.ReachIsAllocated();
      assert out.Reach() - {out} + {out} == out.Reach();
      LooksTheSame();
    }

    lemma ReachIsAllocated()
      ensures forall o :: o in Reach() ==> allocated(o)
    {
      hide OfMachine;
      if items != null {
        FirstAreAllocated(items, items.Length);
      }
    }

    twostate lemma LooksTheSame()
      requires forall o :: o in old(Reach()) && old(allocated(o)) ==> unchanged(o)
      ensures Reach() == old(Reach()) && View() == old(View())
    {
      hide OfItems, ViewItems;
      assert this in old(Reach());
      assert unchanged(this);
      ItemsLookTheSame(items);
    }

    /** Lists look alike exactly if their items are deeply equal in order. */
    lemma ListViewsTellAll(other: KubemarkMachineList)
      ensures View() == other.View() <==>
                && listMeta == other.listMeta && (items == null <==> other.items == null)
                && (items != null && other.items != null ==>
                      && items.Length == other.items.Length
                      && forall i :: 0 <= i < items.Length ==> DeepEqual(items[i], other.items[i]))
    {
      hide DeepEqual, ViewMachine;
      if items != null && other.items != null && items.Length == other.items.Length {
        forall i | 0 <= i < items.Length
          ensures ViewMachine(items[i]) == ViewMachine(other.items[i]) <==> DeepEqual(items[i], other.items[i])
        {
          ViewsTellAll(items[i], other.items[i]);
        }
        assert ViewItems(items).value == ViewItems(other.items).value <==>
                 forall i :: 0 <= i < items.Length ==> ViewMachine(items[i]) == ViewMachine(other.items[i]) by {
          if ViewItems(items).value == ViewItems(other.items).value {
            forall i | 0 <= i < items.Length ensures ViewMachine(items[i]) == ViewMachine(other.items[i]) {
              assert ViewItems(items).value[i] == ViewItems(other.items).value[i];
            }
          }
        }
      }
    }

    /** Whatever has been written to anything that a copy reaches, and to nothing else, the original looks as
        before, provided that they share nothing, which DeepCopy promises. */
    twostate lemma EditsStayInTheCopy(copy: KubemarkMachineList)
      requires old(Reach()) !! old(copy.Reach())
      requires forall o :: o in old(Reach()) && o !in old(copy.Reach()) && old(allocated(o)) ==> unchanged(o)
      ensures Reach() == old(Reach()) && View() == old(View())
    {
      LooksTheSame();
    }
  }
}
