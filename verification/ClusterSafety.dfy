/** What every step keeps about clusters and IP pools: no two clusters hold one IP pool, every
    held one carries a non-empty counter, an IP is held only under a finalizer, the endpoint
    stands exactly when the cluster is ready, and the counter text counts the priorities
    given out since the claim. */
module ClusterSafety {
  import opened Strings
  import opened Labels
  import opened Protocol

  predicate Claimed(hip: HyperIPPool) {
    IPPool in hip.labels && hip.labels[IPPool] != ""
  }

  predicate FreeIP(hip: HyperIPPool) {
    At(hip.labels, IPPool) == Some("")
  }

  predicate CReleasing(cw: ClusterWorker, name: string) {
    cw.CReleased? && cw.name == name
  }

  /** The endpoint and the ready flag go together. */
  predicate EndpointOk(c: HyperCluster) {
    (c.ready <==> c.host != "") && (c.host != "" ==> c.port == 6443)
  }

  /** A cluster with an IP pool that has an address has that address as its endpoint. */
  predicate HostOfIP(ips: map<string, HyperIPPool>, c: HyperCluster) {
    IPPoolName in c.labels ==>
      var i := c.labels[IPPoolName]; i in ips && (ips[i].ip != "" ==> c.host == ips[i].ip)
  }

  predicate ClusterOk(ips: map<string, HyperIPPool>, cw: ClusterWorker, name: string, c: HyperCluster) {
    && (!c.finalizer ==> !c.deleting && c.host == "" && IPPoolName !in c.labels)
    && EndpointOk(c) && HostOfIP(ips, c)
    && (IPPoolName in c.labels ==>
          var i := c.labels[IPPoolName]; i in ips && (Claimed(ips[i]) || CReleasing(cw, name)))
  }

  ghost predicate ClustersOk(s: State) {
    forall n :: n in s.clusters ==> ClusterOk(s.ips, s.cw, n, s.clusters[n])
  }

  ghost predicate ExclusiveIPs(cs: map<string, HyperCluster>) {
    forall a, b :: a in cs && b in cs && a != b && IPPoolName in cs[a].labels ==>
      At(cs[b].labels, IPPoolName) != At(cs[a].labels, IPPoolName)
  }

  ghost predicate Unheld(cs: map<string, HyperCluster>, i: string) {
    forall n :: n in cs ==> At(cs[n].labels, IPPoolName) != Some(i)
  }

  predicate CUnchanged(snap: HyperCluster, c: HyperCluster) {
    c == snap.(deleting := c.deleting) && (snap.deleting ==> c.deleting)
  }

  predicate CKept(cs: map<string, HyperCluster>, name: string, snap: HyperCluster) {
    name in cs && CUnchanged(snap, cs[name]) && snap.finalizer
  }

  predicate Blank(snap: HyperCluster) {
    snap.host == "" && !snap.ready && !snap.deleting
  }

  /** A new IP claimed in memory, or none. */
  ghost predicate Claiming(s: State, snap: HyperCluster, mem: HyperCluster) {
    mem.labels == snap.labels ||
    (IPPoolName in mem.labels &&
     var i := mem.labels[IPPoolName];
     mem.labels == snap.labels[IPPoolName := i] && i in s.ips && Claimed(s.ips[i]) && Unheld(s.clusters, i))
  }

  ghost predicate ClusterWorkerOk(s: State) {
    match s.cw
    case CIdle => true
    case CListIP(name, snap) => CKept(s.clusters, name, snap) && Blank(snap)
    case CClaimIP(name, snap, ip, hip) =>
      && CKept(s.clusters, name, snap) && Blank(snap)
      && ip in s.ips && FreeIP(s.ips[ip]) && FreeIP(hip) && s.ips[ip].ip == hip.ip
    case CListPool(name, snap, mem) =>
      && CKept(s.clusters, name, snap) && Blank(snap) && mem == snap.(labels := mem.labels)
      && Claiming(s, snap, mem) && HostOfIP(s.ips, mem)
    case CMarkPool(name, snap, mem, _, _) =>
      && CKept(s.clusters, name, snap) && Blank(snap) && mem == snap.(labels := mem.labels)
      && Claiming(s, snap, mem) && HostOfIP(s.ips, mem)
    case CClose(name, snap, mem) =>
      if snap.finalizer then
        && CKept(s.clusters, name, snap) && mem.deleting == snap.deleting
        && EndpointOk(mem) && HostOfIP(s.ips, mem) && Claiming(s, snap, mem)
        && (snap.host != "" ==> mem.host == snap.host && mem.labels == snap.labels)
        && (!mem.finalizer ==> snap.deleting && IPPoolName !in mem.labels)
      else
        mem == snap.(finalizer := true) && (name in s.clusters ==> !s.clusters[name].finalizer)
    case CFree(name, snap, ip, hip) =>
      && CKept(s.clusters, name, snap) && snap.deleting && At(snap.labels, IPPoolName) == Some(ip)
      && ip in s.ips && Claimed(hip)
    case CReleased(name, snap) =>
      && CKept(s.clusters, name, snap) && snap.deleting && IPPoolName in snap.labels
      && snap.labels[IPPoolName] in s.ips && FreeIP(s.ips[snap.labels[IPPoolName]])
  }

  /** A pending initialisation meets an IP that has a counter just if it was read with one. */
  predicate IPWorkerOk(ips: map<string, HyperIPPool>, iw: IPWorker) {
    iw.IInit? ==>
      iw.name in ips && (IPPool in iw.snap.labels <==> IPPool in ips[iw.name].labels)
  }

  /** The counter text is the number of priorities given out since the claim, which count down
      from 100. */
  predicate Counts(hip: HyperIPPool, given: seq<string>) {
    && At(hip.labels, IPPool) == Some(Itoa(Wrap64(|given|)))
    && forall j :: 0 <= j < |given| ==> given[j] == Itoa(Wrap64(100 - j))
  }

  ghost predicate GivenOk(s: State) {
    forall i :: i in s.given ==> i in s.ips && Counts(s.ips[i], s.given[i])
  }

  ghost predicate ClusterInv(s: State) {
    && ClustersOk(s) && ExclusiveIPs(s.clusters) && ClusterWorkerOk(s) && IPWorkerOk(s.ips, s.iw)
    && GivenOk(s)
  }

  lemma ClusterAt(s: State, name: string)
    requires ClustersOk(s) && name in s.clusters
    ensures ClusterOk(s.ips, s.cw, name, s.clusters[name])
  {
  }

  // -------------------------------------------------------------------- changes to one IP

  /** A claim stays a claim, a free IP free. */
  predicate KeepsIP(old_: HyperIPPool, new_: HyperIPPool) {
    new_.ip == old_.ip && (Claimed(old_) ==> Claimed(new_)) && (FreeIP(old_) ==> FreeIP(new_))
  }

  lemma ChangeKeepsClusters(s: State, i: string, hip: HyperIPPool)
    requires ClustersOk(s) && (i in s.ips ==> KeepsIP(s.ips[i], hip))
    ensures ClustersOk(s.(ips := s.ips[i := hip]))
  {
    hide Claimed, EndpointOk, FreeIP;
    var s' := s.(ips := s.ips[i := hip]);
    forall n | n in s'.clusters ensures ClusterOk(s'.ips, s'.cw, n, s'.clusters[n]) {
      ClusterAt(s, n);
    }
  }

  lemma ChangeKeepsWorker(s: State, i: string, hip: HyperIPPool)
    requires ClusterWorkerOk(s) && (i in s.ips ==> KeepsIP(s.ips[i], hip))
    ensures ClusterWorkerOk(s.(ips := s.ips[i := hip]))
  {
    hide Claimed, EndpointOk, FreeIP, Unheld, CKept;
  }

  lemma SameClusterState(s: State, s': State)
    requires s'.ips == s.ips && s'.clusters == s.clusters && s'.cw == s.cw && s'.given == s.given
    ensures ClustersOk(s) ==> ClustersOk(s')
    ensures ClusterWorkerOk(s) ==> ClusterWorkerOk(s')
    ensures GivenOk(s) ==> GivenOk(s')
  {
    hide ClusterOk, Unheld, CKept, Counts, HostOfIP, EndpointOk;
  }

  lemma WorkerMoves(s: State, cw: ClusterWorker)
    requires ClustersOk(s) && !s.cw.CReleased? && !cw.CReleased?
    ensures ClustersOk(s.(cw := cw))
  {
    hide EndpointOk, HostOfIP, Claimed;
    forall n | n in s.clusters ensures ClusterOk(s.ips, cw, n, s.clusters[n]) {
      ClusterAt(s, n);
    }
  }

  // ---------------------------------------------------------------------- users and crashes

  lemma NewIPKeeps(s: State, name: string, hip: HyperIPPool)
    requires ClusterInv(s) && name !in s.ips
    ensures ClusterInv(s.(ips := s.ips[name := hip]))
  {
    hide ClustersOk, ClusterWorkerOk, Counts;
    ChangeKeepsClusters(s, name, hip);
    ChangeKeepsWorker(s, name, hip);
  }

  lemma NewKeepsClusters(s: State, name: string, c: HyperCluster)
    requires ClustersOk(s) && ExclusiveIPs(s.clusters) && name !in s.clusters
    requires IPPoolName !in c.labels && ClusterOk(s.ips, s.cw, name, c)
    ensures var s' := s.(clusters := s.clusters[name := c]); ClustersOk(s') && ExclusiveIPs(s'.clusters)
  {
    hide ClusterOk;
    var s' := s.(clusters := s.clusters[name := c]);
    forall n | n in s'.clusters ensures ClusterOk(s'.ips, s'.cw, n, s'.clusters[n]) {
      if n != name { ClusterAt(s, n); }
    }
  }

  lemma NewKeepsWorker(s: State, name: string, labels: Labels)
    requires ClusterWorkerOk(s) && name !in s.clusters && IPPoolName !in labels
    ensures ClusterWorkerOk(s.(clusters := s.clusters[name := FreshCluster(labels)]))
  {
    hide Claimed, HostOfIP, FreeIP, EndpointOk, Blank;
  }

  lemma NewClusterKeeps(s: State, name: string, labels: Labels)
    requires ClusterInv(s) && name !in s.clusters && IPPoolName !in labels
    ensures ClusterInv(s.(clusters := s.clusters[name := FreshCluster(labels)]))
  {
    hide ClustersOk, ClusterWorkerOk, ExclusiveIPs, Counts;
    NoLabelNoIP(s.ips, FreshCluster(labels));
    NewKeepsClusters(s, name, FreshCluster(labels));
    NewKeepsWorker(s, name, labels);
  }

  lemma NoLabelNoIP(ips: map<string, HyperIPPool>, c: HyperCluster)
    requires IPPoolName !in c.labels
    ensures HostOfIP(ips, c)
  {
  }

  lemma DeleteFrame(s: State, name: string, n: string)
    requires name in s.clusters
    ensures var s' := UserNext(s, DeleteCluster(name));
      && s' == s.(clusters := s'.clusters)
      && (n in s'.clusters ==> n in s.clusters && CUnchanged(s.clusters[n], s'.clusters[n]))
      && (n in s.clusters && s.clusters[n].finalizer ==> n in s'.clusters)
      && (n in s'.clusters && !s.clusters[n].finalizer ==> s'.clusters[n] == s.clusters[n])
  {
  }

  lemma DeleteKeepsClusters(s: State, name: string)
    requires ClustersOk(s) && ExclusiveIPs(s.clusters) && name in s.clusters
    ensures var s' := UserNext(s, DeleteCluster(name)); ClustersOk(s') && ExclusiveIPs(s'.clusters)
  {
    hide UserNext, Claimed;
    var s' := UserNext(s, DeleteCluster(name));
    DeleteFrame(s, name, name);
    forall n | n in s'.clusters
      ensures ClusterOk(s'.ips, s'.cw, n, s'.clusters[n])
      ensures n in s.clusters && s'.clusters[n].labels == s.clusters[n].labels
    {
      DeleteFrame(s, name, n);
      ClusterAt(s, n);
    }
  }

  lemma DeleteKeepsWorker(s: State, name: string)
    requires ClusterWorkerOk(s) && name in s.clusters
    ensures ClusterWorkerOk(UserNext(s, DeleteCluster(name)))
  {
    hide UserNext, Claimed, EndpointOk, HostOfIP, FreeIP, Blank;
    var s' := UserNext(s, DeleteCluster(name));
    DeleteFrame(s, name, name);
    if !s.cw.CIdle? { DeleteFrame(s, name, s.cw.name); }
    forall n | n in s'.clusters ensures n in s.clusters && s'.clusters[n].labels == s.clusters[n].labels {
      DeleteFrame(s, name, n);
    }
  }

  lemma DeleteClusterKeeps(s: State, name: string)
    requires ClusterInv(s) && name in s.clusters
    ensures ClusterInv(UserNext(s, DeleteCluster(name)))
  {
    hide UserNext, ClustersOk, ClusterWorkerOk, ExclusiveIPs, Counts;
    DeleteKeepsClusters(s, name);
    DeleteKeepsWorker(s, name);
    DeleteFrame(s, name, name);
  }

  lemma CrashKeeps(s: State)
    requires ClusterInv(s) && !s.cw.CReleased?
    ensures ClusterInv(s.(cw := CIdle))
  {
    hide ClustersOk, Counts;
    WorkerMoves(s, CIdle);
  }

  // ------------------------------------------------------------------- cluster controller

  lemma BeginKeeps(s: State, name: string, owned: bool)
    requires ClusterInv(s) && s.cw.CIdle?
    ensures ClusterInv(s.(cw := BegunCluster(s, name, owned)))
  {
    hide ClustersOk, Counts, Unheld;
    WorkerMoves(s, BegunCluster(s, name, owned));
    if name in s.clusters { ClusterAt(s, name); }
  }

  lemma PickIPKeeps(s: State, choice: Option<string>)
    requires ClusterInv(s) && s.cw.CListIP? && Picks(choice, FreeIPs(s))
    ensures ClusterInv(PickIP(s, choice))
  {
    hide ClustersOk, Counts;
    WorkerMoves(s, PickIP(s, choice).cw);
    ClusterAt(s, s.cw.name);
  }

  lemma ClaimLabels(cur: HyperIPPool, hip: HyperIPPool)
    requires FreeIP(cur) && FreeIP(hip)
    ensures var new_ := PatchIP(hip, hip.(labels := hip.labels[IPPool := "0"]), cur);
            At(new_.labels, IPPool) == Some("0") && new_.ip == cur.ip && Claimed(new_)
  {
  }

  lemma ClaimsFree(s: State)
    requires ClusterWorkerOk(s) && s.cw.CClaimIP?
    ensures s.cw.ip in s.ips && FreeIP(s.ips[s.cw.ip]) && FreeIP(s.cw.hip)
  {
  }

  lemma FreeIsUnheld(s: State, i: string)
    requires ClustersOk(s) && !s.cw.CReleased? && i in s.ips && FreeIP(s.ips[i])
    ensures Unheld(s.clusters, i)
  {
    forall n | n in s.clusters ensures At(s.clusters[n].labels, IPPoolName) != Some(i) {
      ClusterAt(s, n);
    }
  }

  lemma ClaimKeepsClusters(s: State)
    requires ClusterInv(s) && s.cw.CClaimIP? && s.cw.ip in s.ips
    ensures ClustersOk(ClaimIP(s))
  {
    hide MergeFrom, EndpointOk, PatchIP, Claimed;
    var w, s' := s.cw, ClaimIP(s);
    ClaimLabels(s.ips[w.ip], w.hip);
    FreeIsUnheld(s, w.ip);
    forall n | n in s'.clusters ensures ClusterOk(s'.ips, s'.cw, n, s'.clusters[n]) {
      ClusterAt(s, n);
    }
  }

  lemma ClaimKeepsWorker(s: State)
    requires ClusterInv(s) && s.cw.CClaimIP? && s.cw.ip in s.ips
    ensures ClusterWorkerOk(ClaimIP(s))
  {
    hide MergeFrom, PatchIP, Claimed, ClustersOk, Counts;
    ClaimLabels(s.ips[s.cw.ip], s.cw.hip);
    FreeIsUnheld(s, s.cw.ip);
  }

  lemma ClaimKeeps(s: State)
    requires ClusterInv(s) && s.cw.CClaimIP? && s.cw.ip in s.ips
    ensures ClusterInv(ClaimIP(s))
  {
    hide ClustersOk, ClusterWorkerOk, MergeFrom, PatchIP;
    ClaimKeepsClusters(s);
    ClaimKeepsWorker(s);
    ClaimsFree(s);
    ClaimLabels(s.ips[s.cw.ip], s.cw.hip);
    assert Itoa(0) == "0";
  }

  lemma PickPoolKeeps(s: State, choice: Option<string>)
    requires ClusterInv(s) && s.cw.CListPool? && Picks(choice, ValidPools(s))
    ensures ClusterInv(PickPool(s, choice))
  {
    hide ClustersOk, Counts, Unheld, Claimed;
    WorkerMoves(s, PickPool(s, choice).cw);
    ClusterAt(s, s.cw.name);
  }

  lemma MarkKeeps(s: State)
    requires ClusterInv(s) && s.cw.CMarkPool? && s.cw.pool in s.pools
    ensures ClusterInv(MarkPool(s))
  {
    hide ClustersOk, Counts, Unheld, Claimed, HostPart, PatchPool;
    WorkerMoves(s, MarkPool(s).cw);
    ClusterAt(s, s.cw.name);
    SameClusterState(s.(cw := MarkPool(s).cw), MarkPool(s));
  }

  lemma FreeLabels(cur: HyperIPPool, hip: HyperIPPool)
    requires Claimed(hip)
    ensures var new_ := PatchIP(hip, hip.(labels := hip.labels[IPPool := ""]), cur);
            FreeIP(new_) && new_.ip == cur.ip
  {
  }

  lemma ReleaseKeepsClusters(s: State)
    requires ClusterInv(s) && s.cw.CFree? && s.cw.ip in s.ips
    ensures ClustersOk(ReleaseIP(s)) && ClusterWorkerOk(ReleaseIP(s))
  {
    hide MergeFrom, PatchIP, EndpointOk, Claimed, FreeIP, Counts;
    var w, s' := s.cw, ReleaseIP(s);
    FreeLabels(s.ips[w.ip], w.hip);
    forall n | n in s'.clusters ensures ClusterOk(s'.ips, s'.cw, n, s'.clusters[n]) {
      ClusterAt(s, n);
    }
  }

  lemma ReleaseKeeps(s: State)
    requires ClusterInv(s) && s.cw.CFree? && s.cw.ip in s.ips
    ensures ClusterInv(ReleaseIP(s))
  {
    hide ClustersOk, ClusterWorkerOk, MergeFrom, PatchIP, Counts;
    ReleaseKeepsClusters(s);
    ReleaseWorkers(s);
  }

  lemma ReleaseWorkers(s: State)
    requires ClusterInv(s) && s.cw.CFree? && s.cw.ip in s.ips
    ensures IPWorkerOk(ReleaseIP(s).ips, ReleaseIP(s).iw)
  {
    hide ClustersOk, PatchIP, Counts;
    ClusterAt(s, s.cw.name);
    FreeLabels(s.ips[s.cw.ip], s.cw.hip);
  }

  // ------------------------------------------------------------------------ the last patch

  lemma EndFrame(s: State)
    requires s.cw.CClose? || s.cw.CReleased?
    ensures EndCluster(s) == s.(clusters := EndCluster(s).clusters, cw := CIdle)
    ensures forall n :: n in EndCluster(s).clusters && n != s.cw.name ==>
      n in s.clusters && EndCluster(s).clusters[n] == s.clusters[n]
  {
  }

  /** A patch of a cluster that is as it was read yields the object in memory; one that was
      made anew meanwhile only gains the finalizer. */
  lemma EndWrites(s: State)
    requires ClusterWorkerOk(s) && s.cw.CClose?
    ensures var cs, w := EndCluster(s).clusters, s.cw;
      w.name in cs ==>
        && w.name in s.clusters && w.mem.finalizer
        && cs[w.name] == if w.snap.finalizer then w.mem.(deleting := s.clusters[w.name].deleting)
                         else s.clusters[w.name].(finalizer := true)
  {
    hide Claimed, EndpointOk, HostOfIP, Unheld;
    var w := s.cw;
    if w.name in s.clusters {
      if w.snap.finalizer { MergeUnchanged(w.snap.labels, w.mem.labels); }
      else { Same(MergeFrom(w.snap.labels, w.mem.labels, s.clusters[w.name].labels), s.clusters[w.name].labels); }
    }
  }

  lemma EndRemoves(s: State)
    requires ClusterWorkerOk(s) && s.cw.CReleased?
    ensures EndCluster(s).clusters == s.clusters - {s.cw.name}
  {
  }

  lemma EndKeepsOthers(s: State, n: string)
    requires ClusterInv(s) && (s.cw.CClose? || s.cw.CReleased?)
    requires n in EndCluster(s).clusters
    ensures ClusterOk(s.ips, CIdle, n, EndCluster(s).clusters[n])
  {
    hide EndCluster, Counts, ExclusiveIPs, Unheld;
    EndFrame(s);
    if s.cw.CReleased? { EndRemoves(s); } else { EndWrites(s); }
    if n in s.clusters { ClusterAt(s, n); }
  }

  lemma EndKeepsExclusive(s: State)
    requires ClusterInv(s) && (s.cw.CClose? || s.cw.CReleased?)
    ensures ExclusiveIPs(EndCluster(s).clusters)
  {
    hide EndCluster, Counts, Claimed, EndpointOk, HostOfIP, ClustersOk;
    EndFrame(s);
    if s.cw.CReleased? { EndRemoves(s); } else { EndWrites(s); }
  }

  lemma EndKeeps(s: State)
    requires ClusterInv(s) && (s.cw.CClose? || s.cw.CReleased?)
    ensures ClusterInv(EndCluster(s))
  {
    hide EndCluster, Counts, ExclusiveIPs, ClusterOk;
    var s' := EndCluster(s);
    EndFrame(s);
    EndKeepsExclusive(s);
    forall n | n in s'.clusters ensures ClusterOk(s'.ips, s'.cw, n, s'.clusters[n]) {
      EndKeepsOthers(s, n);
    }
  }

  // -------------------------------------------------- priorities and the IP controller

  lemma NextCounts(hip: HyperIPPool, given: seq<string>)
    requires Counts(hip, given)
    ensures var next := NextPriority(hip.labels[IPPool]);
      next.Some? && Counts(hip.(labels := hip.labels[IPPool := next.value.0]), given + [next.value.1])
  {
    hide Wrap64, Itoa, Atoi;
    var n := |given|;
    AtoiItoa(Wrap64(n));
    WrapAgain(n, 1);
    WrapAgain(n, 100);
    assert 1 + n == n + 1;
  }

  lemma NextKeepsIP(hip: HyperIPPool)
    requires IPPool in hip.labels && NextPriority(hip.labels[IPPool]).Some?
    ensures KeepsIP(hip, hip.(labels := hip.labels[IPPool := NextPriority(hip.labels[IPPool]).value.0]))
  {
    hide Wrap64, Digits;
  }

  /** Either nothing happens, or the held IP's counter and its history move on. */
  lemma AskFrame(s: State)
    requires s.mw.MProvision?
    ensures var s' := AskPriority(s);
      || (s'.ips == s.ips && s'.given == s.given)
      || exists i :: i in s.ips && IPPool in s.ips[i].labels && AskedFor(s, s', i)
    ensures var s' := AskPriority(s);
      s'.clusters == s.clusters && s'.cw == s.cw && s'.iw == s.iw
  {
    if IPPoolName in s.mw.hc.labels {
      var i := s.mw.hc.labels[IPPoolName];
      if i in s.ips && IPPool in s.ips[i].labels {
        assert AskedFor(s, AskPriority(s), i) || AskPriority(s).ips == s.ips;
      }
    }
  }

  predicate AskedFor(s: State, s': State, i: string)
    requires i in s.ips && IPPool in s.ips[i].labels
  {
    var next := NextPriority(s.ips[i].labels[IPPool]);
    && next.Some?
    && s'.ips == s.ips[i := s.ips[i].(labels := s.ips[i].labels[IPPool := next.value.0])]
    && s'.given == if i in s.given then s.given[i := s.given[i] + [next.value.1]] else s.given
  }

  lemma AskedKeeps(s: State, s': State, i: string)
    requires ClusterInv(s) && i in s.ips && IPPool in s.ips[i].labels && AskedFor(s, s', i)
    requires s'.clusters == s.clusters && s'.cw == s.cw && s'.iw == s.iw
    ensures ClusterInv(s')
  {
    hide ClustersOk, ClusterWorkerOk, NextPriority, Counts, ExclusiveIPs;
    NextKeepsIP(s.ips[i]);
    ChangeKeepsClusters(s, i, s'.ips[i]);
    ChangeKeepsWorker(s, i, s'.ips[i]);
    var t := s.(ips := s'.ips);
    GivenApart(t, s'.given);
    SameClusterState(t.(given := s'.given), s');
    if i in s.given { NextCounts(s.ips[i], s.given[i]); }
  }

  lemma AskKeeps(s: State)
    requires ClusterInv(s) && s.mw.MProvision?
    ensures ClusterInv(AskPriority(s))
  {
    hide ClustersOk, ClusterWorkerOk, GivenOk, AskPriority, ExclusiveIPs;
    var s' := AskPriority(s);
    AskFrame(s);
    if s'.ips == s.ips && s'.given == s.given {
      SameClusterState(s, s');
    } else {
      var i :| i in s.ips && IPPool in s.ips[i].labels && AskedFor(s, s', i);
      AskedKeeps(s, s', i);
    }
  }

  /** Clusters and the cluster worker do not depend on the priorities given out. */
  lemma GivenApart(s: State, given: map<string, seq<string>>)
    ensures ClustersOk(s) ==> ClustersOk(s.(given := given))
    ensures ClusterWorkerOk(s) ==> ClusterWorkerOk(s.(given := given))
  {
    hide ClusterOk, Unheld, CKept, HostOfIP, EndpointOk;
  }

  lemma InitLabels(cur: HyperIPPool, snap: HyperIPPool, mem: HyperIPPool)
    requires mem == if IPPool in snap.labels then snap else snap.(labels := snap.labels[IPPool := ""])
    requires IPPool !in snap.labels ==> IPPool !in cur.labels
    ensures KeepsIP(cur, PatchIP(snap, mem, cur))
    ensures IPPool in cur.labels ==> At(PatchIP(snap, mem, cur).labels, IPPool) == At(cur.labels, IPPool)
  {
  }

  lemma InitKeeps(s: State)
    requires ClusterInv(s) && s.iw.IInit? && s.iw.name in s.ips
    ensures ClusterInv(InitIP(s))
  {
    hide ClustersOk, ClusterWorkerOk, PatchIP, Itoa;
    var w, s' := s.iw, InitIP(s);
    var mem := if IPPool in w.snap.labels then w.snap else w.snap.(labels := w.snap.labels[IPPool := ""]);
    InitLabels(s.ips[w.name], w.snap, mem);
    ChangeKeepsClusters(s, w.name, s'.ips[w.name]);
    ChangeKeepsWorker(s, w.name, s'.ips[w.name]);
    SameClusterState(s.(ips := s'.ips), s');
  }
}
