/** Where a machine's hollow-node pod lives (controllers/kubemarkcluster.go). */
module KubemarkCluster {
  import opened Common

  /** Namespace and name of a KubemarkMachine. */
  datatype Key = Key(namespace: string, name: string)

  datatype SecretRef = SecretRef(namespace: string, name: string)

  datatype Host = Management | External(cluster: string)

  /** What the bytes under the "kubeconfig" key lead to. */
  datatype Kubeconfig = Malformed | NoClient | Reaches(host: Host)

  /** The two data keys that are read from a referenced secret. */
  datatype HostSecret = HostSecret(kubeconfig: Option<Kubeconfig>, namespace: Option<string>)

  datatype ResolveError = SecretNotFound(ref: SecretRef) | KubeconfigKeyMissing | BadRestConfig | ClientFailed

  /** Cluster, namespace and name shared by a machine's Pod and Secret. */
  datatype Target = Target(host: Host, namespace: string, name: string)

  predicate IsSpace(c: char) {
    c in {'\U{0009}', '\U{000A}', '\U{000B}', '\U{000C}', '\U{000D}', ' ', '\U{0085}', '\U{00A0}', '\U{1680}',
          '\U{2028}', '\U{2029}', '\U{202F}', '\U{205F}', '\U{3000}'}
    || '\U{2000}' <= c <= '\U{200A}'
  }

  /** White space as Unicode has it. */
  lemma SpacesAreWhite(c: char)
    ensures IsSpace(c) <==>
              || 9 <= c as int <= 13 || c as int in {0x20, 0x85, 0xA0, 0x1680}
              || 0x2000 <= c as int <= 0x200A || c as int in {0x2028, 0x2029, 0x202F, 0x205F, 0x3000}
  {
  }

  function TrimLeft(s: string): string {
    if s != "" && IsSpace(s[0]) then TrimLeft(s[1..]) else s
  }

  function TrimRight(s: string): string {
    if s != "" && IsSpace(s[|s| - 1]) then TrimRight(s[..|s| - 1]) else s
  }

  function TrimSpace(s: string): string {
    TrimRight(TrimLeft(s))
  }

  ghost predicate Blank(s: string) {
    forall c :: c in s ==> IsSpace(c)
  }

  lemma {:induction false} TrimLeftDrops(s: string) returns (pre: string)
    ensures Blank(pre) && s == pre + TrimLeft(s)
    ensures TrimLeft(s) == "" || !IsSpace(TrimLeft(s)[0])
  {
    if s != "" && IsSpace(s[0]) {
      var rest := TrimLeftDrops(s[1..]);
      pre := [s[0]] + rest;
    } else {
      pre := "";
    }
  }

  lemma {:induction false} TrimRightDrops(s: string) returns (post: string)
    ensures Blank(post) && s == TrimRight(s) + post
    ensures TrimRight(s) == "" || !IsSpace(TrimRight(s)[|TrimRight(s)| - 1])
  {
    if s != "" && IsSpace(s[|s| - 1]) {
      var rest := TrimRightDrops(s[..|s| - 1]);
      post := rest + [s[|s| - 1]];
    } else {
      post := "";
    }
  }

  /** Trimming removes blank ends only, and leaves no blank at either end. */
  lemma TrimSpaceDropsBlankEnds(s: string) returns (pre: string, post: string)
    ensures Blank(pre) && Blank(post) && s == pre + TrimSpace(s) + post
    ensures TrimSpace(s) != "" ==> !IsSpace(TrimSpace(s)[0]) && !IsSpace(TrimSpace(s)[|TrimSpace(s)| - 1])
  {
    pre := TrimLeftDrops(s);
    post := TrimRightDrops(TrimLeft(s));
  }

  /** Without a reference the pod goes to the management cluster and the owner's own namespace. */
  function Resolve(ref: Option<SecretRef>, ownerNamespace: string, secrets: map<SecretRef, HostSecret>)
    : Result<(Host, string), ResolveError>
  {
    if ref.None? then Ok((Management, ownerNamespace))
    else if ref.value !in secrets then Err(SecretNotFound(ref.value))
    else
      var data := secrets[ref.value];
      if data.kubeconfig.None? then Err(KubeconfigKeyMissing)
      else
        var namespace := if data.namespace.Some? then TrimSpace(data.namespace.value) else "default";
        match data.kubeconfig.value
        case Malformed => Err(BadRestConfig)
        case NoClient => Err(ClientFailed)
        case Reaches(host) => Ok((host, namespace))
  }

  function TargetOf(secrets: map<SecretRef, HostSecret>, k: Key, ref: Option<SecretRef>): Option<Target> {
    match Resolve(ref, k.namespace, secrets)
    case Ok(place) => Some(Target(place.0, place.1, k.name))
    case Err(_) => None
  }

  /** Without a reference: the management cluster and the own namespace. Through one: whatever cluster its
      kubeconfig reaches, and the namespace it names, stripped of blank ends, or the default one. */
  predicate LeadsTo(secrets: map<SecretRef, HostSecret>, own: string, ref: Option<SecretRef>, host: Host, namespace: string) {
    match ref
    case None => host == Management && namespace == own
    case Some(r) =>
      && r in secrets && secrets[r].kubeconfig == Some(Reaches(host))
      && match secrets[r].namespace
         case None => namespace == "default"
         case Some(text) => namespace == TrimSpace(text)
  }

  lemma ResolvesExactly(secrets: map<SecretRef, HostSecret>, k: Key, ref: Option<SecretRef>, t: Target)
    ensures TargetOf(secrets, k, ref) == Some(t) <==> LeadsTo(secrets, k.namespace, ref, t.host, t.namespace) && t.name == k.name
  {
  }

  /** Whichever references they have, two machines share a target exactly when their names agree and both are
      led to one cluster and namespace. Through one shared reference that resolves this is always so; without
      references only for equal keys. */
  lemma TargetsCollideExactly(secrets: map<SecretRef, HostSecret>, k1: Key, ref1: Option<SecretRef>,
                              k2: Key, ref2: Option<SecretRef>)
    ensures var t1, t2 := TargetOf(secrets, k1, ref1), TargetOf(secrets, k2, ref2);
            && (t1.Some? && t1 == t2 <==>
                  && k1.name == k2.name
                  && exists host, ns :: LeadsTo(secrets, k1.namespace, ref1, host, ns) && LeadsTo(secrets, k2.namespace, ref2, host, ns))
            && (ref1 == ref2 && t1.Some? ==>
                  && t2.Some?
                  && (t1 == t2 <==> k1.name == k2.name && (ref1.Some? || k1.namespace == k2.namespace)))
            && (ref1.None? && ref2.None? && k1 != k2 ==> t1 != t2)
  {
    var t1, t2 := TargetOf(secrets, k1, ref1), TargetOf(secrets, k2, ref2);
    if t1.Some? && t1 == t2 {
      ResolvesExactly(secrets, k1, ref1, t1.value);
      ResolvesExactly(secrets, k2, ref2, t1.value);
    }
    if host, ns :| LeadsTo(secrets, k1.namespace, ref1, host, ns) && LeadsTo(secrets, k2.namespace, ref2, host, ns) {
      ResolvesExactly(secrets, k1, ref1, Target(host, ns, k1.name));
      ResolvesExactly(secrets, k2, ref2, Target(host, ns, k2.name));
    }
  }

  /** Why a reference does not lead anywhere, the first reason counting. */
  lemma ResolveErrorsExactly(ref: SecretRef, own: string, secrets: map<SecretRef, HostSecret>)
    ensures var r := Resolve(Some(ref), own, secrets);
            && (r == Err(SecretNotFound(ref)) <==> ref !in secrets)
            && (r == Err(KubeconfigKeyMissing) <==> ref in secrets && secrets[ref].kubeconfig.None?)
            && (r == Err(BadRestConfig) <==> ref in secrets && secrets[ref].kubeconfig == Some(Malformed))
            && (r == Err(ClientFailed) <==> ref in secrets && secrets[ref].kubeconfig == Some(NoClient))
            && (r.Ok? <==> exists host, ns :: LeadsTo(secrets, own, Some(ref), host, ns))
  {
    var k := Key(own, "");
    if host, ns :| LeadsTo(secrets, own, Some(ref), host, ns) {
      ResolvesExactly(secrets, k, Some(ref), Target(host, ns, ""));
    }
    match Resolve(Some(ref), own, secrets)
    case Ok(place) => ResolvesExactly(secrets, k, Some(ref), Target(place.0, place.1, ""));
    case Err(_) =>
  }
}
