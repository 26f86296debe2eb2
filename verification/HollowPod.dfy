/** The hollow-node Pod that a KubemarkMachine is turned into (controllers/kubemarkmachine_controller.go). */
module HollowPod {
  import opened Common
  import opened Text
  import opened ExtendedResources
  import opened KubemarkCluster

  /** Verdict of the semver library on Machine.Spec.Version against ">= 1.22.0". */
  datatype VersionCheck = Unparsable | TooLow | Supported

  datatype Version = Version(text: string, check: VersionCheck)

  datatype Mount = Mount(name: string, containerPath: string, hostPath: string, kind: Option<string>)

  datatype VolumeMount = VolumeMount(mountPath: string, name: string)

  datatype VolumeSource = FromSecret(secretName: string) | FromHost(path: string, kind: Option<string>)

  datatype Volume = Volume(name: string, source: VolumeSource)

  datatype Container = Container(
    name: string,
    image: string,
    args: seq<string>,
    command: seq<string>,
    privileged: bool,
    volumeMounts: seq<VolumeMount>,
    requests: ResourceList)

  /** A toleration of the NoSchedule effect. */
  datatype Toleration = NoSchedule(key: string)

  /** `owner` records which machine's reconcile created the pod; the source has no such field. */
  datatype Pod = Pod(
    owner: Key,
    target: Target,
    labels: map<string, string>,
    containers: seq<Container>,
    tolerations: seq<Toleration>,
    volumes: seq<Volume>)

  const KUBEMARK_NAME := "hollow-node"
  const KUBECONFIG := "kubeconfig"
  const MASTER := "node-role.kubernetes.io/master"
  const REQUESTS: ResourceList := map[CPU := Quantity("40m"), MEMORY := Quantity("10240Ki")]

  // ---------- version gate and arguments ----------

  /** The reconcile gets as far as creating a Pod. */
  predicate PodAllowed(version: Option<Version>, options: Option<ResourceList>) {
    && version.Some?
    && match version.value.check
       case Unparsable => false
       case TooLow => options.None?
       case Supported => true
  }

  function Args(name: string, check: VersionCheck, options: Option<ResourceList>, order: seq<string>): seq<string>
    requires IsOrder(order, Overlay(options))
  {
    var base := ["--v=3", "--morph=kubelet", "--name=" + name];
    if check.Supported? then base + [Flag(order, Overlay(options))] else base
  }

  ghost predicate HasResourcesFlag(args: seq<string>) {
    exists i :: 0 <= i < |args| && StartsWith(args[i], FLAG_PREFIX)
  }

  /** The flag is there exactly when the version passed the gate, and it then says what the overlay of the
      options says, exactly if the options are free of separators. */
  lemma ArgsCarryTheOverlay(name: string, check: VersionCheck, options: Option<ResourceList>, order: seq<string>)
    requires IsOrder(order, Overlay(options))
    ensures HasResourcesFlag(Args(name, check, options, order)) <==> check.Supported?
    ensures check.Supported? ==>
              var args := Args(name, check, options, order);
              ParseFlag(args[|args| - 1]) == Ok(Some(Texts(Overlay(options)))) <==> (options.Some? ==> Clean(options.value))
  {
    hide ParseFlag, Texts;
    var args := Args(name, check, options, order);
    assert FLAG_PREFIX[2] == 'e' && args[0][2] == 'v' && args[1][2] == 'm' && args[2][2] == 'n';
    forall i | 0 <= i < 3
      ensures !StartsWith(args[i], FLAG_PREFIX)
    {
      assert args[i][2] != FLAG_PREFIX[2];
      if |FLAG_PREFIX| <= |args[i]| {
        assert args[i][..|FLAG_PREFIX|][2] == args[i][2];
      }
    }
    if check.Supported? {
      assert args[3] == Flag(order, Overlay(options));
      assert StartsWith(args[3], FLAG_PREFIX);
      OverlayRoundTripsExactlyWhenClean(order, options);
    }
  }

  // ---------- mounts ----------

  function VolumeMountsOf(mounts: seq<Mount>): (r: seq<VolumeMount>)
    ensures |r| == |mounts|
  {
    seq(|mounts|, i requires 0 <= i < |mounts| => VolumeMount(mounts[i].containerPath, mounts[i].name))
  }

  function VolumesOf(mounts: seq<Mount>): (r: seq<Volume>)
    ensures |r| == |mounts|
  {
    seq(|mounts|, i requires 0 <= i < |mounts| => Volume(mounts[i].name, FromHost(mounts[i].hostPath, mounts[i].kind)))
  }

  function AllVolumeMounts(mounts: seq<Mount>): (r: seq<VolumeMount>)
    ensures |r| == |mounts| + 1
  {
    [VolumeMount("/kubeconfig", KUBECONFIG)] + VolumeMountsOf(mounts)
  }

  function AllVolumes(k: Key, mounts: seq<Mount>): (r: seq<Volume>)
    ensures |r| == |mounts| + 1
  {
    [Volume(KUBECONFIG, FromSecret(k.name))] + VolumesOf(mounts)
  }

  function BuildPod(image: string, k: Key, target: Target, mounts: seq<Mount>, options: Option<ResourceList>,
                    version: Version, order: seq<string>): Pod
    requires IsOrder(order, Overlay(options))
  {
    Pod(k, target, map["app" := KUBEMARK_NAME],
        [Container(KUBEMARK_NAME, image + ":" + version.text, Args(k.name, version.check, options, order),
                   ["/kubemark"], true, AllVolumeMounts(mounts), REQUESTS)],
        [NoSchedule(MASTER)], AllVolumes(k, mounts))
  }

  /** The nested loop over ExtraMounts and containers: every container gains the mounts in order, and the
      volumes gain them in the same order. */
  method AddExtraMounts(before: seq<Container>, volumesBefore: seq<Volume>, mounts: seq<Mount>)
    returns (containers: seq<Container>, volumes: seq<Volume>)
    ensures |containers| == |before|
    ensures forall i :: 0 <= i < |before| ==>
              containers[i] == before[i].(volumeMounts := before[i].volumeMounts + VolumeMountsOf(mounts))
    ensures volumes == volumesBefore + VolumesOf(mounts)
  {
    containers, volumes := before, volumesBefore;
    for n := 0 to |mounts|
      invariant |containers| == |before|
      invariant forall i :: 0 <= i < |before| ==>
                  containers[i] == before[i].(volumeMounts := before[i].volumeMounts + VolumeMountsOf(mounts[..n]))
      invariant volumes == volumesBefore + VolumesOf(mounts[..n])
    {
      var v := mounts[n];
      assert VolumeMountsOf(mounts[..n + 1]) == VolumeMountsOf(mounts[..n]) + [VolumeMount(v.containerPath, v.name)];
      assert VolumesOf(mounts[..n + 1]) == VolumesOf(mounts[..n]) + [Volume(v.name, FromHost(v.hostPath, v.kind))];
      for j := 0 to |containers|
        invariant |containers| == |before|
        invariant forall i :: 0 <= i < |before| ==>
                    containers[i] == before[i].(volumeMounts := before[i].volumeMounts +
                                                  VolumeMountsOf(if i < j then mounts[..n + 1] else mounts[..n]))
      {
        var c := containers[j];
        containers := containers[j := c.(volumeMounts := c.volumeMounts + [VolumeMount(v.containerPath, v.name)])];
      }
      volumes := volumes + [Volume(v.name, FromHost(v.hostPath, v.kind))];
    }
    assert mounts[..|mounts|] == mounts;
  }

  method MakePod(image: string, k: Key, target: Target, mounts: seq<Mount>, options: Option<ResourceList>,
                 version: Version, order: seq<string>)
    returns (pod: Pod)
    requires IsOrder(order, Overlay(options))
    ensures pod == BuildPod(image, k, target, mounts, options, version, order)
  {
    var args := ["--v=3", "--morph=kubelet", "--name=" + k.name];
    if version.check.Supported? {
      var resources := GetKubemarkExtendedResources(options);
      var flag := GetKubemarkExtendedResourcesFlag(Some(resources), order);
      args := args + [flag];
    }
    var containers := [Container(KUBEMARK_NAME, image + ":" + version.text, args, ["/kubemark"], true,
                                 [VolumeMount("/kubeconfig", KUBECONFIG)], REQUESTS)];
    var volumes := [Volume(KUBECONFIG, FromSecret(k.name))];
    containers, volumes := AddExtraMounts(containers, volumes, mounts);
    pod := Pod(k, target, map["app" := KUBEMARK_NAME], containers, [NoSchedule(MASTER)], volumes);
  }

  /** Mount names are pairwise distinct and none hides the kubeconfig volume. */
  ghost predicate DistinctMounts(mounts: seq<Mount>) {
    && (forall i, j :: 0 <= i < j < |mounts| ==> mounts[i].name != mounts[j].name)
    && (forall i :: 0 <= i < |mounts| ==> mounts[i].name != KUBECONFIG)
  }

  /** The container mounts and the pod volumes are the kubeconfig entry followed by the mounts in order,
      aligned by index. */
  lemma MountsAreAligned(k: Key, mounts: seq<Mount>, i: nat)
    requires i < |mounts|
    ensures AllVolumeMounts(mounts)[i + 1] == VolumeMount(mounts[i].containerPath, mounts[i].name)
    ensures AllVolumes(k, mounts)[i + 1] == Volume(mounts[i].name, FromHost(mounts[i].hostPath, mounts[i].kind))
    ensures AllVolumes(k, mounts)[0] == Volume(AllVolumeMounts(mounts)[0].name, FromSecret(k.name))
  {
  }

  /** Container mount `i` names volume `j`, for which `i == j` is intended. */
  ghost predicate NamesVolume(k: Key, mounts: seq<Mount>, i: int, j: int)
    requires 0 <= i <= |mounts| && 0 <= j <= |mounts|
  {
    AllVolumeMounts(mounts)[i].name == AllVolumes(k, mounts)[j].name
  }

  /** Every container mount finds its own volume and no other, exactly when the mount names are distinct
      and none is "kubeconfig". */
  lemma MountsResolveExactly(k: Key, mounts: seq<Mount>)
    ensures (forall i, j :: 0 <= i <= |mounts| && 0 <= j <= |mounts| ==> (NamesVolume(k, mounts, i, j) <==> i == j))
            <==> DistinctMounts(mounts)
  {
    if DistinctMounts(mounts) {
      forall i, j | 0 <= i <= |mounts| && 0 <= j <= |mounts|
        ensures NamesVolume(k, mounts, i, j) <==> i == j
      {
        if i > 0 { MountsAreAligned(k, mounts, i - 1); }
        if j > 0 { MountsAreAligned(k, mounts, j - 1); }
      }
    } else if i, j :| 0 <= i < j < |mounts| && mounts[i].name == mounts[j].name {
      MountsAreAligned(k, mounts, i);
      MountsAreAligned(k, mounts, j);
      assert NamesVolume(k, mounts, i + 1, j + 1);
    } else {
      var i :| 0 <= i < |mounts| && mounts[i].name == KUBECONFIG;
      MountsAreAligned(k, mounts, i);
      assert NamesVolume(k, mounts, i + 1, 0);
    }
  }

  // ---------- the Pod, field by field ----------

  /** A version that lets a machine with these options have a Pod: known, readable, and not too low for them. */
  predicate Admits(version: Option<Version>, options: Option<ResourceList>) {
    version.Some? && (version.value.check.Supported? || (version.value.check.TooLow? && options.None?))
  }

  lemma GateAdmits(version: Option<Version>, options: Option<ResourceList>)
    ensures PodAllowed(version, options) <==> Admits(version, options)
  {
  }

  /** `pod` is a hollow node named like its target, fed by the Secret of that name beside it. */
  ghost predicate IsHollowNode(image: string, t: Target, mounts: seq<Mount>, options: Option<ResourceList>,
                               version: Version, pod: Pod)
  {
    && pod.target == t && pod.labels == map["app" := "hollow-node"]
    && pod.tolerations == [NoSchedule("node-role.kubernetes.io/master")]
    && |pod.volumes| == |mounts| + 1
    && pod.volumes[0] == Volume("kubeconfig", FromSecret(t.name))
    && (forall i :: 0 <= i < |mounts| ==>
          pod.volumes[i + 1] == Volume(mounts[i].name, FromHost(mounts[i].hostPath, mounts[i].kind)))
    && |pod.containers| == 1
    && IsHollowContainer(image, t.name, mounts, options, version, pod.containers[0])
  }

  ghost predicate IsHollowContainer(image: string, name: string, mounts: seq<Mount>, options: Option<ResourceList>,
                                    version: Version, c: Container)
  {
    && c.name == "hollow-node" && c.image == image + ":" + version.text
    && c.command == ["/kubemark"] && c.privileged
    && c.requests == map["cpu" := Quantity("40m"), "memory" := Quantity("10240Ki")]
    && |c.args| == (if version.check.Supported? then 4 else 3)
    && c.args[0] == "--v=3" && c.args[1] == "--morph=kubelet" && c.args[2] == "--name=" + name
    && (|c.args| == 4 ==> exists order :: IsOrder(order, Overlay(options)) && c.args[3] == Flag(order, Overlay(options)))
    && |c.volumeMounts| == |mounts| + 1
    && c.volumeMounts[0] == VolumeMount("/kubeconfig", "kubeconfig")
    && (forall i :: 0 <= i < |mounts| ==> c.volumeMounts[i + 1] == VolumeMount(mounts[i].containerPath, mounts[i].name))
  }

  lemma BuildsHollowNodes(image: string, k: Key, t: Target, mounts: seq<Mount>, options: Option<ResourceList>,
                          version: Version, order: seq<string>)
    requires IsOrder(order, Overlay(options)) && t.name == k.name
    ensures IsHollowNode(image, t, mounts, options, version, BuildPod(image, k, t, mounts, options, version, order))
    ensures BuildPod(image, k, t, mounts, options, version, order).owner == k
  {
    hide IsOrder, Overlay, Flag;
    forall i | 0 <= i < |mounts|
      ensures AllVolumeMounts(mounts)[i + 1] == VolumeMount(mounts[i].containerPath, mounts[i].name)
      ensures AllVolumes(k, mounts)[i + 1] == Volume(mounts[i].name, FromHost(mounts[i].hostPath, mounts[i].kind))
    {
      MountsAreAligned(k, mounts, i);
    }
  }
}
