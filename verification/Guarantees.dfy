/** The guarantees of the controllers, over every reachable state and every run. */
module Guarantees {
  import opened Strings
  import opened Labels
  import opened Protocol
  import opened PoolSafety
  import opened Accounting
  import opened Runs
  import C = ClusterSafety

  // ----------------------------------------------------------------------- exclusiveness

  /** No two machines reference the same pool. Every referenced pool is valid and carries a
      cluster name, but for the one whose release is just being completed; so does a pool that
      is being adopted, and no machine references that one yet. A patch that is to initialise
      a pool is only ever pending while the pool has no valid label. */
  lemma ExclusiveAdoption(s: State)
    requires Reachable(s)
    ensures forall a, b :: a in s.machines && b in s.machines && a != b && s.machines[a].poolRef.Some? ==>
      s.machines[b].poolRef != s.machines[a].poolRef
    ensures forall n :: n in s.machines && s.machines[n].poolRef.Some? && !(s.mw.MReleased? && s.mw.name == n) ==>
      var p := s.machines[n].poolRef.value;
      && p in s.pools && Matches(s.pools[p].labels, map[PoolValid := "true"])
      && ClusterName in s.pools[p].labels && s.pools[p].labels[ClusterName] != ""
    ensures InFlight(s.mw).Some? ==>
      var p := InFlight(s.mw).value;
      && p in s.pools && Matches(s.pools[p].labels, map[PoolValid := "true"])
      && ClusterName in s.pools[p].labels && s.pools[p].labels[ClusterName] != ""
      && forall n :: n in s.machines ==> s.machines[n].poolRef != Some(p)
    ensures s.pw.PCheck? && PoolValid !in s.pw.snap.labels ==>
      s.pw.name in s.pools && PoolValid !in s.pools[s.pw.name].labels
  {
    hide Reachable, AccountInv, C.ClusterInv, MachinesOk, MachineWorkerOk, Held;
    ReachableHolds(s);
    if InFlight(s.mw).Some? {
      InFlightHeld(s);
      HeldLabels(s.pools, InFlight(s.mw).value);
    }
    forall n | n in s.machines && s.machines[n].poolRef.Some? && !Releasing(s.mw, n)
      ensures var p := s.machines[n].poolRef.value;
        && p in s.pools && Matches(s.pools[p].labels, map[PoolValid := "true"])
        && ClusterName in s.pools[p].labels && s.pools[p].labels[ClusterName] != ""
    {
      MachineAt(s, n);
      HeldHere(s, n);
    }
    if s.pw.PCheck? && PoolValid !in s.pw.snap.labels {
      assert At(s.pools[s.pw.name].labels, PoolValid) == None;
    }
  }

  lemma HeldLabels(pools: map<string, HyperMachinePool>, p: string)
    requires Held(pools, p)
    ensures p in pools && Matches(pools[p].labels, map[PoolValid := "true"])
    ensures ClusterName in pools[p].labels && pools[p].labels[ClusterName] != ""
  {
    PoolSelectors(pools[p]);
  }

  lemma HeldHere(s: State, n: string)
    requires n in s.machines && MachineOk(s.pools, s.mw, n, s.machines[n]) && !Releasing(s.mw, n)
    requires s.machines[n].poolRef.Some?
    ensures var p := s.machines[n].poolRef.value;
      && p in s.pools && Matches(s.pools[p].labels, map[PoolValid := "true"])
      && ClusterName in s.pools[p].labels && s.pools[p].labels[ClusterName] != ""
  {
    hide Agrees;
    HeldLabels(s.pools, s.machines[n].poolRef.value);
  }

  /** No two clusters hold the same IP pool, and every held one carries a non-empty counter,
      but for the one whose release is just being completed. With distinct addresses in the IP
      pools, the endpoints taken from them are distinct. */
  lemma ExclusiveVIPs(s: State)
    requires Reachable(s)
    ensures forall a, b :: a in s.clusters && b in s.clusters && a != b && IPPoolName in s.clusters[a].labels ==>
      IPPoolName in s.clusters[b].labels ==> s.clusters[a].labels[IPPoolName] != s.clusters[b].labels[IPPoolName]
    ensures forall n :: n in s.clusters && IPPoolName in s.clusters[n].labels ==>
      var i := s.clusters[n].labels[IPPoolName];
      && i in s.ips
      && ((s.cw.CReleased? && s.cw.name == n) || (IPPool in s.ips[i].labels && s.ips[i].labels[IPPool] != ""))
      && (s.ips[i].ip != "" ==> s.clusters[n].host == s.ips[i].ip)
    ensures (forall i, j :: i in s.ips && j in s.ips && i != j && s.ips[i].ip != "" ==> s.ips[i].ip != s.ips[j].ip) ==>
      forall a, b :: a in s.clusters && b in s.clusters && a != b && FromIP(s, a) && FromIP(s, b) ==>
        s.clusters[a].host != s.clusters[b].host
  {
    hide Reachable, AccountInv, PoolInv, C.ClustersOk, C.ClusterWorkerOk, C.GivenOk, C.EndpointOk;
    ReachableHolds(s);
    assert forall a, b :: a in s.clusters && b in s.clusters && a != b && IPPoolName in s.clusters[a].labels ==>
      At(s.clusters[b].labels, IPPoolName) != At(s.clusters[a].labels, IPPoolName);
    forall n | n in s.clusters && IPPoolName in s.clusters[n].labels
      ensures var i := s.clusters[n].labels[IPPoolName];
        && i in s.ips && (C.CReleasing(s.cw, n) || C.Claimed(s.ips[i]))
        && (s.ips[i].ip != "" ==> s.clusters[n].host == s.ips[i].ip)
    {
      C.ClusterAt(s, n);
    }
  }

  /** The IP controller's pending patch, whenever it arrives, gives the IP the free marker if
      the IP has no counter by then, and otherwise changes nothing: no claim is overwritten. */
  lemma InitSparesClaims(s: State)
    requires Reachable(s) && s.iw.IInit?
    ensures s.iw.name in s.ips && s.iw.name in InitIP(s).ips
    ensures var labels := s.ips[s.iw.name].labels;
      InitIP(s).ips[s.iw.name].labels == if IPPool in labels then labels else labels[IPPool := ""]
  {
    hide Reachable, AccountInv, PoolInv, C.ClustersOk, C.ClusterWorkerOk, C.GivenOk, C.ExclusiveIPs;
    ReachableHolds(s);
    var labels := s.ips[s.iw.name].labels;
    Same(InitIP(s).ips[s.iw.name].labels, if IPPool in labels then labels else labels[IPPool := ""]);
  }

  /** The claim of an IP, whenever its patch arrives, finds the IP still free and sets its counter
      to zero and nothing else. */
  lemma ClaimIPInOneStep(s: State)
    requires Reachable(s) && s.cw.CClaimIP?
    ensures s.cw.ip in s.ips && Matches(s.ips[s.cw.ip].labels, map[IPPool := ""])
    ensures ClaimIP(s).ips == s.ips[s.cw.ip := s.ips[s.cw.ip].(labels := s.ips[s.cw.ip].labels[IPPool := "0"])]
  {
    hide Reachable, AccountInv, PoolInv, C.ClustersOk, C.GivenOk, C.ExclusiveIPs, MergeFrom;
    ReachableHolds(s);
    var hip := s.ips[s.cw.ip];
    Same(PatchIP(s.cw.hip, s.cw.hip.(labels := s.cw.hip.labels[IPPool := "0"]), hip).labels, hip.labels[IPPool := "0"]);
  }

  /** The release of an IP, whenever its patch arrives and however often priorities were asked
      for meanwhile, finds it still claimed and empties its counter and nothing else. */
  lemma ReleaseIPInOneStep(s: State)
    requires Reachable(s) && s.cw.CFree?
    ensures s.cw.ip in s.ips && IPPool in s.ips[s.cw.ip].labels && s.ips[s.cw.ip].labels[IPPool] != ""
    ensures ReleaseIP(s).ips == s.ips[s.cw.ip := s.ips[s.cw.ip].(labels := s.ips[s.cw.ip].labels[IPPool := ""])]
  {
    hide Reachable, AccountInv, PoolInv, C.ClustersOk, C.GivenOk, C.ExclusiveIPs, MergeFrom;
    ReachableHolds(s);
    C.ClusterAt(s, s.cw.name);
    var hip := s.ips[s.cw.ip];
    Same(PatchIP(s.cw.hip, s.cw.hip.(labels := s.cw.hip.labels[IPPool := ""]), hip).labels, hip.labels[IPPool := ""]);
  }

  /** The cluster's endpoint is the address of an IP pool. */
  predicate FromIP(s: State, n: string)
    requires n in s.clusters
  {
    IPPoolName in s.clusters[n].labels &&
    s.clusters[n].labels[IPPoolName] in s.ips && s.ips[s.clusters[n].labels[IPPoolName]].ip != ""
  }

  // -------------------------------------------------------------------------- finalizers

  /** Whatever holds a resource holds its finalizer. */
  lemma HoldersAreFinalized(s: State)
    requires Reachable(s)
    ensures forall n :: n in s.machines && s.machines[n].poolRef.Some? ==> s.machines[n].finalizer
    ensures forall n :: n in s.clusters && IPPoolName in s.clusters[n].labels ==> s.clusters[n].finalizer
  {
    hide Reachable, AccountInv, MachinesOk, MachineWorkerOk, C.ClustersOk, C.ClusterWorkerOk, C.GivenOk;
    ReachableHolds(s);
    forall n | n in s.machines && s.machines[n].poolRef.Some? ensures s.machines[n].finalizer { MachineAt(s, n); }
    forall n | n in s.clusters && IPPoolName in s.clusters[n].labels ensures s.clusters[n].finalizer {
      C.ClusterAt(s, n);
    }
  }

  /** A machine that leaves the store with a pool leaves by the last patch of its own deletion:
      the pool is free again, or the node could not be reached. */
  lemma MachineLeaves(s: State, e: Event, n: string)
    requires Reachable(s) && Enabled(s, e)
    requires n in s.machines && s.machines[n].poolRef.Some? && n !in Next(s, e).machines
    ensures e == Machine(MEnd) && (s.mw.MReleased? || s.mw.MAbandon?) && s.mw.name == n
    ensures var p := s.machines[n].poolRef.value;
      && p in s.pools
      && (s.mw.MReleased? <==> Matches(s.pools[p].labels, map[PoolValid := "true", ClusterName := ""]))
  {
    hide Reachable, C.ClusterInv, UserNext, MachineNext, ClusterNext, PoolNext, IPNext, UserCan, ClusterCan,
         PoolCan, IPCan, AccountInv, EndMachine;
    ReachableHolds(s);
    MachineAt(s, n);
    PoolSelectors(s.pools[s.machines[n].poolRef.value]);
    match e
    case User(u) => UserKeepsFinalized(s, u, n);
    case Machine(m) =>
      MachineWrites(s, m);
      if s.mw.MClose? { CloseKeeps(s, n); } else { EndRemoves(s); DeletedTaken(s); }
    case Cluster(c) => ClusterFrame(s, c);
    case Pool(p) => PoolFrame(s, p);
    case IP(i) => IPFrame(s, i);
  }

  lemma UserKeepsFinalized(s: State, e: UserEvent, n: string)
    requires UserCan(s, e) && n in s.machines && s.machines[n].finalizer
    ensures n in UserNext(s, e).machines
    ensures UserNext(s, e).machines[n] == s.machines[n].(deleting := UserNext(s, e).machines[n].deleting)
  {
    hide PutCluster, Taken;
  }

  lemma MachineWrites(s: State, e: MachineEvent)
    requires MachineCan(s, e)
    ensures !e.MEnd? ==> MachineNext(s, e).machines == s.machines
    ensures e.MEnd? ==> MachineNext(s, e) == EndMachine(s)
  {
    hide BegunMachine, PickMarked, PickAny, AdoptPatch, AskPriority, FinishProvision, ReleasePool, EndMachine,
         Picks, KnownOS, InFlight;
  }

  lemma CloseKeeps(s: State, n: string)
    requires PoolInv(s) && s.mw.MClose? && n in s.machines && s.machines[n].poolRef.Some?
    ensures n in EndMachine(s).machines
  {
    hide Held, Agrees, Unreferenced, HostPart;
    MachineAt(s, n);
  }

  /** A cluster that leaves the store with an IP leaves it free. */
  lemma ClusterLeaves(s: State, e: Event, n: string)
    requires Reachable(s) && Enabled(s, e)
    requires n in s.clusters && IPPoolName in s.clusters[n].labels && n !in Next(s, e).clusters
    ensures e == Cluster(CEnd) && s.cw.CReleased? && s.cw.name == n
    ensures var i := s.clusters[n].labels[IPPoolName]; i in s.ips && Matches(s.ips[i].labels, map[IPPool := ""])
  {
    hide Reachable, PoolInv, UserNext, MachineNext, ClusterNext, PoolNext, IPNext, UserCan, MachineCan,
         PoolCan, IPCan, AccountInv, EndCluster;
    ReachableHolds(s);
    C.ClusterAt(s, n);
    match e
    case User(u) => UserKeepsFinalizedCluster(s, u, n);
    case Machine(m) => MachineFrame(s, m);
    case Cluster(c) =>
      ClusterWrites(s, c);
      if s.cw.CClose? { CloseKeepsCluster(s, n); } else { C.EndRemoves(s); }
    case Pool(p) => PoolFrame(s, p);
    case IP(i) => IPFrame(s, i);
  }

  lemma UserKeepsFinalizedCluster(s: State, e: UserEvent, n: string)
    requires UserCan(s, e) && n in s.clusters && s.clusters[n].finalizer
    ensures n in UserNext(s, e).clusters
    ensures UserNext(s, e).clusters[n] == s.clusters[n].(deleting := UserNext(s, e).clusters[n].deleting)
  {
    hide PutMachine, Taken;
  }

  lemma MachineFrame(s: State, e: MachineEvent)
    requires MachineCan(s, e)
    ensures MachineNext(s, e).clusters == s.clusters
  {
    hide BegunMachine, PickMarked, PickAny, AdoptPatch, AskPriority, FinishProvision, ReleasePool, EndMachine,
         Picks, KnownOS, InFlight;
  }

  lemma ClusterWrites(s: State, e: ClusterEvent)
    requires ClusterCan(s, e)
    ensures !e.CEnd? ==> ClusterNext(s, e).clusters == s.clusters
    ensures e.CEnd? ==> ClusterNext(s, e) == EndCluster(s)
  {
    hide Picks, BegunCluster, PickIP, ClaimIP, PickPool, MarkPool, ReleaseIP, EndCluster;
  }

  lemma CloseKeepsCluster(s: State, n: string)
    requires C.ClusterInv(s) && s.cw.CClose? && n in s.clusters && IPPoolName in s.clusters[n].labels
    ensures n in EndCluster(s).clusters
  {
    hide C.Claimed, C.EndpointOk, C.HostOfIP, C.Unheld, MergeFrom;
    C.ClusterAt(s, n);
  }

  /** What the last step of a cluster's reconcile leaves. */
  lemma ClusterEnds(s: State)
    requires Reachable(s) && (s.cw.CClose? || s.cw.CReleased?)
    ensures ClusterCan(s, CEnd) && ClusterNext(s, CEnd) == EndCluster(s)
    ensures s.cw.CClose? && s.cw.snap.finalizer && !s.cw.snap.deleting && s.cw.mem.host != "" ==>
      var cs := EndCluster(s).clusters;
      s.cw.name in cs && cs[s.cw.name].host == s.cw.mem.host && cs[s.cw.name].port == 6443 && cs[s.cw.name].ready
    ensures s.cw.CClose? && !s.cw.mem.finalizer ==> s.cw.name !in EndCluster(s).clusters
    ensures s.cw.CReleased? && IPPoolName in s.cw.snap.labels ==>
      var i := s.cw.snap.labels[IPPoolName];
      s.cw.name !in EndCluster(s).clusters && i in s.ips && Matches(s.ips[i].labels, map[IPPool := ""])
  {
    hide Reachable, AccountInv, PoolInv, C.ClustersOk, C.GivenOk, EndCluster;
    ReachableHolds(s);
    if s.cw.CReleased? {
      C.EndRemoves(s);
    } else {
      C.EndWrites(s);
      if s.cw.snap.finalizer && !s.cw.snap.deleting { ClusterRemains(s); }
    }
  }

  lemma ClusterRemains(s: State)
    requires C.ClusterWorkerOk(s) && s.cw.CClose? && s.cw.snap.finalizer && !s.cw.snap.deleting
    ensures s.cw.name in EndCluster(s).clusters
  {
    hide C.Claimed, C.EndpointOk, C.HostOfIP, C.Unheld, MergeFrom;
  }
}
