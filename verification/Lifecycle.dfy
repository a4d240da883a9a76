/** Guarantees over whole runs: what stays as it is for ever, what is counted, and what comes
    to an end. */
module Lifecycle {
  import opened Strings
  import opened Labels
  import opened Protocol
  import opened PoolSafety
  import opened Accounting
  import opened Runs
  import opened Guarantees
  import C = ClusterSafety
  import P = Provisioning

  // -------------------------------------------------------------------- ready machines

  predicate MachineStays(s: State, es: seq<Event>, n: string)
    requires IsRun(s, es)
    decreases |es|
  {
    n in s.machines && (es == [] || MachineStays(Next(s, es[0]), es[1..], n))
  }

  lemma CloseKeepsReady(s: State, n: string)
    requires PoolInv(s) && (s.mw.MClose? || s.mw.MAbandon? || s.mw.MReleased?)
    requires n in s.machines && s.machines[n].ready && n in EndMachine(s).machines
    ensures EndMachine(s).machines[n] == s.machines[n].(deleting := EndMachine(s).machines[n].deleting)
  {
    hide Held, Agrees, Unreferenced, HostPart, EndMachine;
    MachineAt(s, n);
    if n != s.mw.name { EndOnlyOne(s, n); }
    else if s.mw.MClose? { EndWrites(s); }
    else { EndRemoves(s); }
  }

  lemma StepKeepsReady(s: State, e: Event, n: string)
    requires Inv(s) && Enabled(s, e)
    requires n in s.machines && s.machines[n].ready && n in Next(s, e).machines
    ensures Next(s, e).machines[n] == s.machines[n].(deleting := Next(s, e).machines[n].deleting)
  {
    hide C.ClusterInv, AccountInv, PoolInv, UserNext, MachineNext, ClusterNext, PoolNext, IPNext, UserCan, ClusterCan,
         PoolCan, IPCan, MachinesOk, EndMachine;
    match e
    case User(u) => ReadyIsFinalized(s, n); UserKeepsFinalized(s, u, n);
    case Machine(m) =>
      MachineWrites(s, m);
      if m.MEnd? { CloseKeepsReady(s, n); }
    case Cluster(c) => ClusterFrame(s, c);
    case Pool(p) => PoolFrame(s, p);
    case IP(i) => IPFrame(s, i);
  }

  lemma ReadyIsFinalized(s: State, n: string)
    requires PoolInv(s) && n in s.machines && s.machines[n].ready
    ensures s.machines[n].finalizer
  {
    MachineAt(s, n);
  }

  /** Once a machine is ready, then in every later state, for as long as it is in the store, its
      reference has not changed, and it carries that pool's current host name, and as its only
      address the pool's without the port. */
  lemma {:induction false} ReadyForEver(s: State, es: seq<Event>, n: string)
    requires Inv(s) && IsRun(s, es) && Uncut(s, es) && MachineStays(s, es, n) && s.machines[n].ready
    ensures var s' := End(s, es);
      && n in s'.machines && s'.machines[n].ready && s'.machines[n].poolRef == s.machines[n].poolRef
      && s'.machines[n].poolRef.Some? && s'.machines[n].poolRef.value in s'.pools
      && var hmp := s'.pools[s'.machines[n].poolRef.value];
      && s'.machines[n].providerID == "hyper:///" + hmp.status.hostName
      && |s'.machines[n].addresses| == 1
      && var host := s'.machines[n].addresses[0];
      && ':' !in host && (host == hmp.address || host + ":" <= hmp.address)
    decreases |es|
  {
    hide Inv, Next, Enabled, CutsRelease, HostPart;
    if es == [] {
      ReadyAgrees(s, n);
      HostBeforeColon(s.pools[s.machines[n].poolRef.value].address);
    } else {
      StepKeeps(s, es[0]);
      assert n in Next(s, es[0]).machines;
      StepKeepsReady(s, es[0], n);
      ReadyForEver(Next(s, es[0]), es[1..], n);
    }
  }

  lemma ReadyAgrees(s: State, n: string)
    requires Inv(s) && n in s.machines && s.machines[n].ready
    ensures Agrees(s.pools, s.machines[n])
  {
    MachineAt(s, n);
  }

  // --------------------------------------------------------------------------- endpoints

  predicate ClusterStays(s: State, es: seq<Event>, n: string)
    requires IsRun(s, es)
    decreases |es|
  {
    n in s.clusters && (es == [] || ClusterStays(Next(s, es[0]), es[1..], n))
  }

  lemma CloseKeepsEndpoint(s: State, n: string)
    requires C.ClusterInv(s) && (s.cw.CClose? || s.cw.CReleased?)
    requires n in s.clusters && s.clusters[n].host != "" && n in EndCluster(s).clusters
    ensures EndCluster(s).clusters[n].host == s.clusters[n].host
  {
    hide C.Claimed, C.EndpointOk, C.HostOfIP, C.Unheld, EndCluster;
    C.ClusterAt(s, n);
    C.EndFrame(s);
    if n == s.cw.name {
      if s.cw.CClose? { C.EndWrites(s); } else { C.EndRemoves(s); }
    }
  }

  lemma StepKeepsEndpoint(s: State, e: Event, n: string)
    requires Inv(s) && Enabled(s, e)
    requires n in s.clusters && s.clusters[n].host != "" && n in Next(s, e).clusters
    ensures Next(s, e).clusters[n].host == s.clusters[n].host
  {
    hide PoolInv, AccountInv, C.ClusterInv, UserNext, MachineNext, ClusterNext, PoolNext, IPNext, UserCan, MachineCan,
         PoolCan, IPCan, EndCluster;
    match e
    case User(u) => HostIsFinalized(s, n); UserKeepsFinalizedCluster(s, u, n);
    case Machine(m) => MachineFrame(s, m);
    case Cluster(c) =>
      ClusterWrites(s, c);
      if c.CEnd? { CloseKeepsEndpoint(s, n); }
    case Pool(p) => PoolFrame(s, p);
    case IP(i) => IPFrame(s, i);
  }

  lemma HostIsFinalized(s: State, n: string)
    requires C.ClusterInv(s) && n in s.clusters && s.clusters[n].host != ""
    ensures s.clusters[n].finalizer
  {
    C.ClusterAt(s, n);
  }

  /** A cluster's endpoint is written once: while the cluster is in the store its host never
      changes, its port is 6443, and it is ready. */
  lemma {:induction false} EndpointForEver(s: State, es: seq<Event>, n: string)
    requires Inv(s) && IsRun(s, es) && Uncut(s, es) && ClusterStays(s, es, n) && s.clusters[n].host != ""
    ensures var s' := End(s, es);
      && n in s'.clusters && s'.clusters[n].host == s.clusters[n].host
      && s'.clusters[n].port == 6443 && s'.clusters[n].ready
    decreases |es|
  {
    hide Inv, Next, Enabled, CutsRelease;
    if es == [] {
      EndpointComplete(s, n);
    } else {
      StepKeeps(s, es[0]);
      assert n in Next(s, es[0]).clusters;
      StepKeepsEndpoint(s, es[0], n);
      EndpointForEver(Next(s, es[0]), es[1..], n);
    }
  }

  /** A cluster is ready exactly when it has an endpoint. */
  lemma EndpointComplete(s: State, n: string)
    requires Inv(s) && n in s.clusters
    ensures s.clusters[n].ready <==> s.clusters[n].host != ""
    ensures s.clusters[n].host != "" ==> s.clusters[n].port == 6443
  {
    C.ClusterAt(s, n);
  }

  // -------------------------------------------------------------------------- priorities

  /** Between the claim of an IP pool and its release, the priorities given out are 100, 99, 98
      and so on: no two of them are the same, and the first hundred lie in the range of a VRRP
      backup. */
  lemma Priorities(s: State, i: string, j: nat, k: nat)
    requires Reachable(s) && i in s.given && j < k < |s.given[i]| && k < 2 * INT64_LIMIT
    ensures i in s.ips && C.Claimed(s.ips[i])
    ensures s.given[i][j] != s.given[i][k]
    ensures j < 100 ==> Atoi(s.given[i][j]) == Some(100 - j) && 1 <= 100 - j <= 100
  {
    hide Reachable, AccountInv, PoolInv, C.ClustersOk, C.ClusterWorkerOk, Itoa, Atoi;
    ReachableHolds(s);
    var given := s.given[i];
    ItoaInjective(Wrap64(100 - j), Wrap64(100 - k));
    AtoiItoa(Wrap64(100 - j));
    AtoiItoa(Wrap64(|given|));
  }

  /** Exactly the first of them makes its node the master, all later ones make theirs a backup,
      with the priority 100 less the number of nodes before it. */
  lemma OneMaster(s: State, i: string, k: nat, nic: string, vip: string)
    requires Reachable(s) && i in s.given && k < |s.given[i]| && k < 2 * INT64_LIMIT
    ensures i in s.ips
    ensures P.MasterConfig(nic, s.given[i][k], vip) ==
            map["$1" := nic, "$2" := Itoa(Wrap64(100 - k)), "$3" := vip, "$4" := if k == 0 then "MASTER" else "BACKUP"]
  {
    hide Reachable, AccountInv, PoolInv, C.ClustersOk, C.ClusterWorkerOk, Itoa, Atoi;
    ReachableHolds(s);
    ItoaInjective(Wrap64(100), Wrap64(100 - k));
    HundredText();
  }

  /** The cluster as the machine controller has read it. */
  function ReadCluster(mw: MachineWorker): Option<HyperCluster> {
    if mw.MList1? || mw.MList2? || mw.MAdopt? || mw.MProvision? then Some(mw.hc) else None
  }

  /** It carries the address of its IP pool. */
  predicate ReadsVIP(s: State) {
    ReadCluster(s.mw).Some? ==> C.HostOfIP(s.ips, ReadCluster(s.mw).value)
  }

  /** IP pools stay, with their addresses. */
  predicate SameVIPs(s: State, s': State) {
    forall i :: i in s.ips ==> i in s'.ips && s'.ips[i].ip == s.ips[i].ip
  }

  lemma UserKeepsVIPs(s: State, u: UserEvent)
    requires UserCan(s, u)
    ensures SameVIPs(s, UserNext(s, u))
  {
    hide PutMachine, PutCluster, Taken;
  }

  lemma MachineKeepsVIPs(s: State, m: MachineEvent)
    requires MachineCan(s, m)
    ensures SameVIPs(s, MachineNext(s, m))
  {
    hide BegunMachine, EndMachine, PatchPool, InFlight, Picks, KnownOS, NextPriority;
  }

  lemma ClusterKeepsVIPs(s: State, c: ClusterEvent)
    requires ClusterCan(s, c)
    ensures SameVIPs(s, ClusterNext(s, c))
  {
    hide BegunCluster, EndCluster, PatchPool, HostPart, MergeFrom, Picks;
  }

  lemma StepKeepsVIPs(s: State, e: Event)
    requires Enabled(s, e)
    ensures SameVIPs(s, Next(s, e))
  {
    hide UserNext, MachineNext, ClusterNext, PoolNext, UserCan, MachineCan, ClusterCan, PoolCan, MergeFrom;
    match e
    case User(u) => UserKeepsVIPs(s, u);
    case Machine(m) => MachineKeepsVIPs(s, m);
    case Cluster(c) => ClusterKeepsVIPs(s, c);
    case Pool(p) => PoolFrame(s, p);
    case IP(i) => IPFrame(s, i);
  }

  /** The cluster is read as a reconcile begins, and is the same to its end. */
  lemma MachineReadsCluster(s: State, m: MachineEvent)
    requires MachineCan(s, m)
    ensures var r := ReadCluster(MachineNext(s, m).mw);
      r.Some? ==> r == ReadCluster(s.mw) || (exists n :: n in s.clusters && r.value == s.clusters[n])
  {
    hide PatchPool, NextPriority, EndMachine, Picks, KnownOS, InFlight;
  }

  lemma OthersLeaveMachine(s: State, e: Event)
    requires Enabled(s, e) && !e.Machine?
    ensures Next(s, e).mw == s.mw
  {
    hide UserNext, ClusterNext, PoolNext, IPNext, UserCan, ClusterCan, PoolCan, IPCan;
    match e
    case User(u) => UserWaits(s, u);
    case Cluster(c) => ClusterFrame(s, c);
    case Pool(p) => PoolFrame(s, p);
    case IP(i) => IPFrame(s, i);
  }

  lemma StepReadsVIP(s: State, e: Event)
    requires Inv(s) && ReadsVIP(s) && Enabled(s, e)
    ensures ReadsVIP(Next(s, e))
  {
    hide PoolInv, AccountInv, MachineNext, MachineCan, C.ClusterWorkerOk, C.GivenOk, ReadCluster;
    StepKeepsVIPs(s, e);
    if e.Machine? {
      MachineReadsCluster(s, e.m);
      var r := ReadCluster(Next(s, e).mw);
      if r.Some? && r != ReadCluster(s.mw) {
        var n :| n in s.clusters && r.value == s.clusters[n];
        C.ClusterAt(s, n);
      }
    } else {
      OthersLeaveMachine(s, e);
    }
  }

  lemma {:induction false} RunReadsVIP(s: State, es: seq<Event>)
    requires Inv(s) && ReadsVIP(s) && IsRun(s, es) && Uncut(s, es)
    ensures ReadsVIP(End(s, es))
    decreases |es|
  {
    hide Inv, ReadsVIP, Next, Enabled, CutsRelease;
    if es != [] {
      StepReadsVIP(s, es[0]);
      StepKeeps(s, es[0]);
      RunReadsVIP(Next(s, es[0]), es[1..]);
    }
  }

  lemma ReachableReadsVIP(s: State)
    requires Reachable(s)
    ensures ReadsVIP(s)
  {
    hide Inv, IsRun, Uncut, End;
    var run :| IsRun(START, run) && Uncut(START, run) && End(START, run) == s;
    StartHolds();
    RunReadsVIP(START, run);
  }

  /** A control-plane node asks for its priority on a claimed IP with an address. With `k` nodes
      before it since the claim, it gets the priority 100 less `k`, is the master exactly if it
      is the first, and the endpoint of the cluster as it was read, which is the third value
      it is given, is the IP's address. */
  lemma AskedMaster(s: State, nic: string)
    requires Reachable(s) && s.mw.MProvision? && IPPoolName in s.mw.hc.labels
    requires var i := s.mw.hc.labels[IPPoolName]; i in s.given && |s.given[i]| < 2 * INT64_LIMIT
    ensures var i, s' := s.mw.hc.labels[IPPoolName], AskPriority(s);
      && i in s.ips && i in s'.given && |s'.given[i]| == |s.given[i]| + 1
      && var k, priority := |s.given[i]|, s'.given[i][|s.given[i]|];
      && s'.given[i] == s.given[i] + [priority]
      && (s.ips[i].ip != "" ==>
            P.MasterConfig(nic, priority, s.mw.hc.host) ==
              map["$1" := nic, "$2" := Itoa(Wrap64(100 - k)), "$3" := s.ips[i].ip,
                  "$4" := if k == 0 then "MASTER" else "BACKUP"])
  {
    hide Reachable, AccountInv, PoolInv, C.ClustersOk, C.ClusterWorkerOk, Itoa, Atoi;
    ReachableHolds(s);
    ReachableReadsVIP(s);
    var i := s.mw.hc.labels[IPPoolName];
    var k := |s.given[i]|;
    AtoiItoa(Wrap64(k));
    GivesNext(s, i);
    ItoaInjective(Wrap64(100), Wrap64(100 - k));
    HundredText();
  }

  lemma GivesNext(s: State, i: string)
    requires s.mw.MProvision? && At(s.mw.hc.labels, IPPoolName) == Some(i)
    requires i in s.ips && i in s.given && C.Counts(s.ips[i], s.given[i])
    ensures i in AskPriority(s).given
    ensures AskPriority(s).given[i] == s.given[i] + [Itoa(Wrap64(100 - |s.given[i]|))]
  {
    hide Itoa, Wrap64, NextPriority;
    C.NextCounts(s.ips[i], s.given[i]);
    var next := NextPriority(s.ips[i].labels[IPPool]).value.1;
    assert (s.given[i] + [next])[|s.given[i]|] == next;
  }

  /** Asking for a priority never makes a claimed IP look free, and leaves a free one as it is. */
  lemma BumpKeepsClaims(s: State, i: string)
    requires s.mw.MProvision? && i in s.ips
    ensures var s' := AskPriority(s);
      && i in s'.ips && (C.Claimed(s'.ips[i]) <==> C.Claimed(s.ips[i]))
      && (!C.Claimed(s.ips[i]) ==> s'.ips[i] == s.ips[i])
  {
    hide Itoa, Atoi, Wrap64;
    if IPPool in s.ips[i].labels {
      var num := Atoi(s.ips[i].labels[IPPool]);
      NoNumber();
      if num.Some? { AtoiItoa(Wrap64(num.value + 1)); }
    }
  }

  lemma NoNumber()
    ensures Atoi("") == None
  {
  }

  lemma HundredText()
    ensures Itoa(100) == "100"
  {
    assert Digits(100) == Digits(10) + [Digit(0)];
    assert Digits(10) == Digits(1) + [Digit(0)];
  }

  // --------------------------------------------------------------- ownership over a run

  /** The pool a step loses for good, and why. */
  function CauseOf(s: State, e: Event): Option<Cause> {
    if e == Machine(MEnd) && s.mw.MClose? && s.mw.snap.poolRef.Some? && s.mw.mem.poolRef != s.mw.snap.poolRef
    then Some(Superseded)
    else if e == Machine(MEnd) && s.mw.MAbandon? && s.mw.snap.poolRef.Some? then Some(Abandoned)
    else if e == Machine(MCrash) && InFlight(s.mw).Some? then Some(Crashed)
    else None
  }

  /** How often a run loses a pool for a cause. */
  function Tally(s: State, es: seq<Event>, cause: Cause): nat
    requires IsRun(s, es)
    decreases |es|
  {
    if es == [] then 0
    else (if CauseOf(s, es[0]) == Some(cause) then 1 else 0) + Tally(Next(s, es[0]), es[1..], cause)
  }

  lemma OneMoreLost(s: State, s': State, p: string, cause: Cause, c: Cause)
    requires p !in s.lost && s'.lost == s.lost[p := cause]
    ensures |LostBy(s', c)| == |LostBy(s, c)| + if c == cause then 1 else 0
  {
    assert LostBy(s', c) == if c == cause then LostBy(s, c) + {p} else LostBy(s, c);
  }

  lemma SameLost(s: State, s': State, c: Cause)
    requires s'.lost == s.lost
    ensures LostBy(s', c) == LostBy(s, c)
  {
  }

  lemma EndTallies(s: State, c: Cause)
    requires PoolInv(s) && AccountInv(s) && MachineCan(s, MEnd)
    ensures |LostBy(EndMachine(s), c)| == |LostBy(s, c)| + if CauseOf(s, Machine(MEnd)) == Some(c) then 1 else 0
  {
    hide MachinesOk, LostBy, EndMachine, HostPart, Agrees, Valid, Taken;
    var s', cause := EndMachine(s), CauseOf(s, Machine(MEnd));
    if s.mw.MClose? { EndMachineFrame(s); } else { EndDeletionFrame(s); DeletedTaken(s); }
    if cause.None? {
      SameLost(s, s', c);
    } else {
      var p := s.mw.snap.poolRef.value;
      EndHeldBefore(s);
      OneMoreLost(s, s', p, cause.value, c);
    }
  }

  lemma EndHeldBefore(s: State)
    requires PoolInv(s) && AccountInv(s) && CauseOf(s, Machine(MEnd)).Some?
    ensures s.mw.snap.poolRef.value !in s.lost
  {
    hide MachinesOk, HostPart, Agrees, Valid, Taken;
    assert s.mw.name in s.machines && s.machines[s.mw.name].poolRef == s.mw.snap.poolRef;
  }

  lemma MachineTallies(s: State, e: MachineEvent, c: Cause)
    requires PoolInv(s) && AccountInv(s) && MachineCan(s, e)
    ensures |LostBy(MachineNext(s, e), c)| ==
            |LostBy(s, c)| + if CauseOf(s, Machine(e)) == Some(c) then 1 else 0
  {
    hide PoolInv, LostBy, EndMachine, Picks, KnownOS, FinishProvision, AskPriority, AdoptPatch, ReleasePool, PickAny,
         PickMarked, BegunMachine, Taken;
    if e.MEnd? {
      EndTallies(s, c);
    } else if e.MCrash? && InFlight(s.mw).Some? {
      OneMoreLost(s, MachineNext(s, e), InFlight(s.mw).value, Crashed, c);
    } else {
      SameLost(s, MachineNext(s, e), c);
    }
  }

  lemma UserTallies(s: State, e: UserEvent, c: Cause)
    requires AccountInv(s) && UserCan(s, e) && c != Preset
    ensures |LostBy(UserNext(s, e), c)| == |LostBy(s, c)|
  {
    hide LostBy, PutMachine, PutCluster, Taken;
    if e.NewPool? && Taken(e.hmp) {
      OneMoreLost(s, UserNext(s, e), e.name, Preset, c);
    } else {
      SameLost(s, UserNext(s, e), c);
    }
  }

  /** Initialising a pool takes back a preset name only. */
  lemma PoolTallies(s: State, e: PoolEvent, c: Cause)
    requires PoolInv(s) && AccountInv(s) && PoolCan(s, e) && c != Preset
    ensures LostBy(PoolNext(s, e), c) == LostBy(s, c)
  {
    hide MachinesOk, MachineWorkerOk, CheckPool, Taken, LostBy;
    if e.PPatch? {
      InitLosesPreset(s, e.ssh);
      OnlyPresetGone(s, PoolNext(s, e), s.pw.name, c);
    } else {
      SameLost(s, PoolNext(s, e), c);
    }
  }

  /** Only a pool that was created taken can be lost when its first check comes. */
  lemma InitLosesPreset(s: State, ssh: SshResult)
    requires PoolInv(s) && AccountInv(s) && s.pw.PCheck? && s.pw.name in s.pools
    ensures CheckPool(s, ssh).lost == s.lost ||
            (CheckPool(s, ssh).lost == s.lost - {s.pw.name} && (s.pw.name in s.lost ==> s.lost[s.pw.name] == Preset))
  {
    hide MachinesOk, MachineWorkerOk, CheckedPool, PatchPool, Taken, Exclusive, TakenKnown;
    if PoolValid !in s.pw.snap.labels {
      assert At(s.pools[s.pw.name].labels, PoolValid) == None;
    }
  }

  lemma OnlyPresetGone(s: State, s': State, name: string, c: Cause)
    requires s'.lost == s.lost || (s'.lost == s.lost - {name} && (name in s.lost ==> s.lost[name] == Preset))
    requires c != Preset
    ensures LostBy(s', c) == LostBy(s, c)
  {
  }

  lemma StepTallies(s: State, e: Event, c: Cause)
    requires Inv(s) && Enabled(s, e) && c != Preset
    ensures |LostBy(Next(s, e), c)| == |LostBy(s, c)| + if CauseOf(s, e) == Some(c) then 1 else 0
  {
    hide C.ClusterInv, PoolInv, AccountInv, UserNext, MachineNext, ClusterNext, PoolNext, IPNext, UserCan, MachineCan,
         ClusterCan, PoolCan, IPCan, LostBy;
    match e
    case User(u) => UserTallies(s, u, c);
    case Machine(m) => MachineTallies(s, m, c);
    case Cluster(cl) => ClusterFrame(s, cl); SameLost(s, Next(s, e), c);
    case Pool(p) => PoolTallies(s, p, c);
    case IP(i) => IPFrame(s, i); SameLost(s, Next(s, e), c);
  }

  lemma {:induction false} RunTallies(s: State, es: seq<Event>, c: Cause)
    requires Inv(s) && IsRun(s, es) && Uncut(s, es) && c != Preset
    ensures |LostBy(End(s, es), c)| == |LostBy(s, c)| + Tally(s, es, c)
    decreases |es|
  {
    hide Inv, Next, Enabled, CutsRelease, CauseOf, LostBy;
    if es != [] {
      StepTallies(s, es[0], c);
      StepKeeps(s, es[0]);
      RunTallies(Next(s, es[0]), es[1..], c);
    }
  }

  /** On every run, when no machine reconcile is under way, the pools that carry a cluster name
      are as many as the machines with a reference, the adoptions superseded by a retry, the
      deletions that could not reach the node, the adoptions cut by a crash, and the pools
      created with a name. */
  lemma OwnershipAccounting(es: seq<Event>)
    requires IsRun(START, es) && Uncut(START, es) && End(START, es).mw.MIdle?
    ensures var s := End(START, es);
      |TakenPools(s)| == |WithRef(s.machines)| + Tally(START, es, Superseded) + Tally(START, es, Abandoned)
                         + Tally(START, es, Crashed) + |LostBy(s, Preset)|
  {
    hide Inv, IsRun, Uncut, End, Tally, LostBy, TakenPools;
    StartHolds();
    RunKeeps(START, es);
    RunTallies(START, es, Superseded);
    RunTallies(START, es, Abandoned);
    RunTallies(START, es, Crashed);
    NothingLostAtStart();
    InvParts(End(START, es));
    Accounted(End(START, es));
  }

  lemma InvParts(s: State)
    requires Inv(s)
    ensures PoolInv(s) && AccountInv(s)
  {
  }

  lemma NothingLostAtStart()
    ensures forall c :: LostBy(START, c) == {}
  {
  }

  /** No event of the run fails. */
  predicate FailureFree(es: seq<Event>) {
    forall k :: 0 <= k < |es| ==> !Failure(es[k])
  }

  lemma {:induction false} RunStaysClean(s: State, es: seq<Event>)
    requires Inv(s) && Clean(s) && IsRun(s, es) && Uncut(s, es) && FailureFree(es)
    ensures Inv(End(s, es)) && Clean(End(s, es))
    decreases |es|
  {
    hide Inv, Clean, Next, Enabled, CutsRelease, Failure;
    if es != [] {
      InvParts(s);
      StepStaysClean(s, es[0]);
      StepKeeps(s, es[0]);
      RunStaysClean(Next(s, es[0]), es[1..]);
    }
  }

  /** Without failures no pool is lost: when no machine reconcile is under way, the pools with a
      cluster name are exactly as many as the machines that reference one, and those are ready. */
  lemma NoPoolLost(es: seq<Event>)
    requires IsRun(START, es) && Uncut(START, es) && FailureFree(es) && End(START, es).mw.MIdle?
    ensures var s := End(START, es);
      |TakenPools(s)| == |WithRef(s.machines)| && forall n :: n in WithRef(s.machines) ==> s.machines[n].ready
  {
    hide Inv, IsRun, Uncut, End, TakenPools;
    StartHolds();
    RunStaysClean(START, es);
    InvParts(End(START, es));
    Accounted(End(START, es));
  }

  // ---------------------------------------------------------------------------- retries

  /** A pool may become free by this step: a release, a new free pool, or a check that finds the
      node of a pool not yet valid within reach. */
  predicate Refills(s: State, e: Event) {
    match e
    case User(u) => u.NewPool? && IsFree(u.hmp)
    case Machine(m) => m.MRelease?
    case Pool(p) => p.PPatch? && p.ssh.Up? && s.pw.PCheck? && !CountsAsValid(s.pw.snap.labels)
    case _ => false
  }

  /** No pool becomes free along the run. */
  predicate NoRefill(s: State, es: seq<Event>)
    requires IsRun(s, es)
    decreases |es|
  {
    es == [] || (!Refills(s, es[0]) && NoRefill(Next(s, es[0]), es[1..]))
  }

  function Adoptions(es: seq<Event>): nat {
    if es == [] then 0 else (if es[0] == Machine(MAdoptPatch) then 1 else 0) + Adoptions(es[1..])
  }

  lemma AdoptTakesOne(s: State)
    requires PoolInv(s) && s.mw.MAdopt? && s.mw.pool in s.pools
    ensures s.mw.pool in FreePools(s) && FreePools(AdoptPatch(s)) == FreePools(s) - {s.mw.pool}
  {
    hide MachinesOk, MergeFrom, Adopted, PatchPool;
    AdoptLabels(s.pools[s.mw.pool], s.mw.hmp, s.mw.cluster);
  }

  lemma MarkFreesNone(s: State)
    requires s.cw.CMarkPool? && s.cw.pool in s.pools
    ensures FreePools(MarkPool(s)) == FreePools(s)
  {
    hide MergeFrom, Marked, PatchPool, HostPart;
    var p := s.cw.pool;
    MarkLabels(s.pools[p], s.cw.hmp);
    assert forall k :: k != ControlPlane ==> At(MarkPool(s).pools[p].labels, k) == At(s.pools[p].labels, k);
  }

  lemma CheckFreesNone(s: State, ssh: SshResult)
    requires PoolInv(s) && s.pw.PCheck? && s.pw.name in s.pools && (ssh.Down? || CountsAsValid(s.pw.snap.labels))
    ensures FreePools(CheckPool(s, ssh)) <= FreePools(s)
  {
    hide MachinesOk, MachineWorkerOk, ParseBool;
    CheckLabels(s.pools[s.pw.name], s.pw.snap, ssh);
    CheckValid(s.pools[s.pw.name], s.pw.snap, ssh);
  }

  lemma CheckValid(cur: HyperMachinePool, snap: HyperMachinePool, ssh: SshResult)
    requires At(cur.labels, PoolValid) == At(snap.labels, PoolValid) && (ssh.Down? || CountsAsValid(snap.labels))
    ensures var new_ := PatchPool(snap, CheckedPool(snap, ssh), cur); Valid(new_.labels) ==> Valid(cur.labels)
  {
  }

  lemma NewFreesNone(s: State, name: string, hmp: HyperMachinePool)
    requires name !in s.pools && !IsFree(hmp)
    ensures FreePools(AddPool(s, name, hmp)) == FreePools(s)
  {
    hide Taken;
  }

  lemma StepFreesNone(s: State, e: Event)
    requires Inv(s) && Enabled(s, e) && !Refills(s, e)
    ensures FreePools(Next(s, e)) <= FreePools(s)
    ensures e == Machine(MAdoptPatch) ==> |FreePools(Next(s, e))| < |FreePools(s)|
  {
    hide C.ClusterInv, AccountInv, FreePools, UserNext, ClusterNext, PoolNext, IPNext, MachineNext, PoolInv;
    match e
    case User(u) => UserFreesNone(s, u);
    case Machine(m) =>
      MachinePools(s, m);
      if m.MAdoptPatch? { AdoptTakesOne(s); Fewer(FreePools(s), s.mw.pool); } else { SamePools(s, Next(s, e)); }
    case Cluster(c) =>
      ClusterFrame(s, c);
      if c.CMark? { ClusterPools(s, c); MarkFreesNone(s); } else { SamePools(s, Next(s, e)); }
    case Pool(p) =>
      PoolFrame(s, p);
      if p.PPatch? { PoolPools(s, p); CheckFreesNone(s, p.ssh); } else { SamePools(s, Next(s, e)); }
    case IP(i) => IPFrame(s, i); SamePools(s, Next(s, e));
  }

  lemma Fewer(ps: set<string>, p: string)
    requires p in ps
    ensures |ps - {p}| < |ps|
  {
  }

  lemma SamePools(s: State, s': State)
    requires s'.pools == s.pools
    ensures FreePools(s') == FreePools(s)
  {
  }

  lemma UserFreesNone(s: State, e: UserEvent)
    requires UserCan(s, e) && !Refills(s, User(e))
    ensures FreePools(UserNext(s, e)) == FreePools(s)
  {
    hide PutMachine, PutCluster, FreePools, IsFree, AddPool;
    if e.NewPool? { NewFreesNone(s, e.name, e.hmp); } else { SamePools(s, UserNext(s, e)); }
  }

  lemma MachinePools(s: State, e: MachineEvent)
    requires MachineCan(s, e) && !e.MRelease?
    ensures if e.MAdoptPatch? then MachineNext(s, e) == AdoptPatch(s) else MachineNext(s, e).pools == s.pools
  {
    hide BegunMachine, PickMarked, PickAny, AdoptPatch, AskPriority, FinishProvision, ReleasePool, EndMachine,
         Picks, KnownOS, InFlight;
  }

  lemma ClusterPools(s: State, e: ClusterEvent)
    requires ClusterCan(s, e) && e.CMark?
    ensures ClusterNext(s, e) == MarkPool(s)
  {
    hide MarkPool;
  }

  lemma PoolPools(s: State, e: PoolEvent)
    requires PoolCan(s, e) && e.PPatch?
    ensures PoolNext(s, e) == CheckPool(s, e.ssh)
  {
    hide CheckPool;
  }

  /** With no pool becoming free, the cycle of failing, starting over and adopting another pool
      makes at most as many adoptions as there were free pools; the free pools left never
      outnumber what the adoptions leave. */
  lemma {:induction false} RetryTerminates(s: State, es: seq<Event>)
    requires Inv(s) && IsRun(s, es) && Uncut(s, es) && NoRefill(s, es)
    ensures |FreePools(End(s, es))| + Adoptions(es) <= |FreePools(s)|
    decreases |es|
  {
    hide Inv, Next, Enabled, CutsRelease, FreePools, Refills;
    if es != [] {
      StepFreesNone(s, es[0]);
      StepKeeps(s, es[0]);
      RetryTerminates(Next(s, es[0]), es[1..]);
      SubsetSize(FreePools(Next(s, es[0])), FreePools(s));
    }
  }

  lemma {:induction false} SubsetSize(a: set<string>, b: set<string>)
    requires a <= b
    ensures |a| <= |b|
    decreases a
  {
    if a != {} {
      var x :| x in a;
      SubsetSize(a - {x}, b - {x});
    }
  }

  /** The machine worker is not idle before any step of the run. */
  predicate Busy(s: State, es: seq<Event>)
    requires IsRun(s, es)
    decreases |es|
  {
    es == [] || (!s.mw.MIdle? && Busy(Next(s, es[0]), es[1..]))
  }

  /** A reconcile that looks for a pool or has found none, or has ended. */
  predicate EmptyHanded(mw: MachineWorker, n: string, snap: HyperMachine) {
    || mw.MIdle?
    || ((mw.MList1? || mw.MList2? || (mw.MClose? && mw.mem == mw.snap)) && mw.name == n && mw.snap == snap)
  }

  predicate Untouched(ms: map<string, HyperMachine>, n: string, snap: HyperMachine) {
    n in ms && ms[n] == snap.(deleting := ms[n].deleting) && snap.finalizer
  }

  lemma NothingListed(s: State)
    requires FreePools(s) == {}
    ensures FreeMarkedPools(s) == {}
  {
    assert forall p :: p in FreeMarkedPools(s) ==> p in FreePools(s);
  }

  lemma ClosesUntouched(s: State, n: string, snap: HyperMachine)
    requires Untouched(s.machines, n, snap) && s.mw.MClose? && EmptyHanded(s.mw, n, snap)
    ensures EndMachine(s).machines == s.machines
  {
    assert PatchMachine(snap, snap, s.machines[n]) == s.machines[n];
    assert s.machines[n := s.machines[n]] == s.machines;
  }

  lemma MachineEndsEmptyHanded(s: State, e: MachineEvent, n: string, snap: HyperMachine)
    requires MachineCan(s, e) && !s.mw.MIdle? && FreePools(s) == {}
    requires EmptyHanded(s.mw, n, snap) && Untouched(s.machines, n, snap)
    ensures EmptyHanded(MachineNext(s, e).mw, n, snap) && MachineNext(s, e).machines == s.machines
  {
    hide FreePools, FreeMarkedPools, EndMachine, Untouched;
    NothingListed(s);
    if e.MEnd? { ClosesUntouched(s, n, snap); }
  }

  lemma StepEndsEmptyHanded(s: State, e: Event, n: string, snap: HyperMachine)
    requires Enabled(s, e) && !s.mw.MIdle? && FreePools(s) == {}
    requires EmptyHanded(s.mw, n, snap) && Untouched(s.machines, n, snap)
    ensures EmptyHanded(Next(s, e).mw, n, snap) && Untouched(Next(s, e).machines, n, snap)
  {
    hide FreePools, UserNext, MachineNext, ClusterNext, PoolNext, IPNext, UserCan, MachineCan, ClusterCan, PoolCan,
         IPCan, EmptyHanded;
    match e
    case User(u) => UserKeepsFinalized(s, u, n); UserWaits(s, u);
    case Machine(m) => MachineEndsEmptyHanded(s, m, n, snap);
    case Cluster(c) => ClusterFrame(s, c);
    case Pool(p) => PoolFrame(s, p);
    case IP(i) => IPFrame(s, i);
  }

  lemma UserWaits(s: State, u: UserEvent)
    requires UserCan(s, u)
    ensures UserNext(s, u).mw == s.mw && UserNext(s, u).cw == s.cw
  {
    hide PutMachine, PutCluster, Taken;
  }

  lemma {:induction false} RunEndsEmptyHanded(s: State, es: seq<Event>, n: string, snap: HyperMachine)
    requires Inv(s) && IsRun(s, es) && Uncut(s, es) && NoRefill(s, es) && Busy(s, es) && FreePools(s) == {}
    requires EmptyHanded(s.mw, n, snap) && Untouched(s.machines, n, snap)
    ensures Untouched(End(s, es).machines, n, snap)
    decreases |es|
  {
    hide Inv, Next, Enabled, CutsRelease, FreePools, Refills, EmptyHanded, Untouched;
    if es != [] {
      StepEndsEmptyHanded(s, es[0], n, snap);
      StepFreesNone(s, es[0]);
      StepKeeps(s, es[0]);
      RunEndsEmptyHanded(Next(s, es[0]), es[1..], n, snap);
    }
  }

  /** A reconcile that finds no free pool stops quietly: until it has ended, whatever the others
      do short of freeing a pool, nothing is adopted, and the machine in the store stays as it
      was but for a request to delete it. */
  lemma QuietStop(s: State, es: seq<Event>)
    requires Inv(s) && s.mw.MList1? && FreePools(s) == {}
    requires IsRun(s, es) && Uncut(s, es) && NoRefill(s, es) && Busy(s, es)
    ensures Adoptions(es) == 0
    ensures var n, ms := s.mw.name, End(s, es).machines;
      n in s.machines && n in ms && ms[n] == s.machines[n].(deleting := ms[n].deleting)
  {
    hide Inv, IsRun, End, Uncut, NoRefill, Busy, FreePools, Adoptions;
    RetryTerminates(s, es);
    Listing(s);
    RunEndsEmptyHanded(s, es, s.mw.name, s.mw.snap);
  }

  lemma Listing(s: State)
    requires Inv(s) && s.mw.MList1?
    ensures Untouched(s.machines, s.mw.name, s.mw.snap)
  {
    hide AccountInv, C.ClusterInv, MachinesOk, Exclusive;
  }
}
