/** What holds on every run of the controllers, from the empty store on, whatever the
    interleaving and wherever reconciles crash, as long as no crash falls between a release
    and the removal of the finalizer that follows it. */
module Runs {
  import opened Strings
  import opened Protocol
  import opened PoolSafety
  import opened Accounting
  import C = ClusterSafety

  ghost predicate Inv(s: State) {
    PoolInv(s) && C.ClusterInv(s) && AccountInv(s)
  }

  // ------------------------------------------------------------------------- every step

  lemma PoolInvFrame(s: State, s': State)
    requires PoolInv(s)
    requires s'.pools == s.pools && s'.machines == s.machines && s'.mw == s.mw
    requires s'.pw == s.pw || s'.pw.PIdle? ||
             (s'.pw.PCheck? && s'.pw.name in s.pools && s'.pw.snap == s.pools[s'.pw.name])
    ensures PoolInv(s')
  {
    hide MachinesOk, MachineWorkerOk;
    SamePoolState(s, s');
  }

  lemma ClusterInvFrame(s: State, s': State)
    requires C.ClusterInv(s)
    requires s'.ips == s.ips && s'.clusters == s.clusters && s'.cw == s.cw && s'.given == s.given
    requires s'.iw == s.iw || s'.iw.IIdle? || (s'.iw.IInit? && s'.iw.name in s.ips && s'.iw.snap == s.ips[s'.iw.name])
    ensures C.ClusterInv(s')
  {
    hide C.ClustersOk, C.ClusterWorkerOk, C.GivenOk;
    C.SameClusterState(s, s');
  }

  lemma UserKeepsPools(s: State, e: UserEvent)
    requires PoolInv(s) && AccountInv(s) && UserCan(s, e)
    ensures PoolInv(UserNext(s, e)) && AccountInv(UserNext(s, e))
  {
    hide PoolInv, AccountInv, PutMachine, PutCluster, Taken;
    match e
    case NewPool(name, hmp) => NewPoolKeeps(s, name, hmp); NewPoolAccounts(s, name, hmp);
    case NewMachine(name) => NewMachineKeeps(s, name); NewMachineAccounts(s, name);
    case DeleteMachine(name) => DeleteMachineKeeps(s, name); DeleteMachineAccounts(s, name);
    case NewIP(_, _) => PoolInvFrame(s, UserNext(s, e)); AccountFrame(s, UserNext(s, e));
    case NewCluster(_, _) => PoolInvFrame(s, UserNext(s, e)); AccountFrame(s, UserNext(s, e));
    case DeleteCluster(_) => PoolInvFrame(s, UserNext(s, e)); AccountFrame(s, UserNext(s, e));
  }

  lemma UserKeepsClusters(s: State, e: UserEvent)
    requires C.ClusterInv(s) && UserCan(s, e)
    ensures C.ClusterInv(UserNext(s, e))
  {
    hide C.ClusterInv, PutMachine, PutCluster, Taken;
    match e
    case NewIP(name, hip) => C.NewIPKeeps(s, name, hip);
    case NewCluster(name, labels) => C.NewClusterKeeps(s, name, labels);
    case DeleteCluster(name) => C.DeleteClusterKeeps(s, name);
    case NewPool(_, _) => ClusterInvFrame(s, UserNext(s, e));
    case NewMachine(_) => ClusterInvFrame(s, UserNext(s, e));
    case DeleteMachine(_) => ClusterInvFrame(s, UserNext(s, e));
  }

  lemma MachineKeepsPools(s: State, e: MachineEvent)
    requires PoolInv(s) && AccountInv(s) && MachineCan(s, e) && !CutsRelease(s, Machine(e))
    ensures PoolInv(MachineNext(s, e))
  {
    hide PoolInv, AccountInv, BegunMachine, PickMarked, PickAny, AdoptPatch, AskPriority, FinishProvision, ReleasePool,
         EndMachine, CrashMachine, Picks, KnownOS;
    match e
    case MBegin(name, owned, cluster, hcName, provisioning) =>
      BeginKeeps(s, name, owned, cluster, hcName, provisioning);
    case MPick1(choice) => PickMarkedKeeps(s, choice);
    case MPick2(choice) => PickAnyKeeps(s, choice);
    case MAdoptPatch => AdoptKeeps(s);
    case MAskPriority => AskKeeps(s);
    case MFinish(ok) => FinishKeeps(s, ok);
    case MUnreachable => UnreachableKeeps(s);
    case MRelease => ReleaseKeeps(s);
    case MEnd => EndKeeps(s);
    case MCrash => CrashKeeps(s);
  }

  lemma MachineKeepsAccounts(s: State, e: MachineEvent)
    requires PoolInv(s) && AccountInv(s) && MachineCan(s, e)
    ensures AccountInv(MachineNext(s, e))
  {
    hide PoolInv, AccountInv, AskPriority, ReleasePool, FinishProvision, EndMachine, AdoptPatch, KnownOS, Picks;
    match e
    case MBegin(_, _, _, _, _) => BeginInFlight(s, e); AccountFrame(s, MachineNext(s, e));
    case MPick1(_) => PickInFlight(s, e); AccountFrame(s, MachineNext(s, e));
    case MPick2(_) => PickInFlight(s, e); AccountFrame(s, MachineNext(s, e));
    case MAdoptPatch => AdoptAccounts(s);
    case MAskPriority => AccountFrame(s, AskPriority(s));
    case MFinish(ok) => FinishAccounts(s, ok);
    case MUnreachable => AccountFrame(s, MachineNext(s, e));
    case MRelease => ReleaseAccounts(s);
    case MEnd => EndAccounts(s);
    case MCrash => CrashAccounts(s);
  }

  lemma BeginInFlight(s: State, e: MachineEvent)
    requires MachineCan(s, e) && e.MBegin?
    ensures InFlight(MachineNext(s, e).mw) == InFlight(s.mw) == None
  {
  }

  lemma PickInFlight(s: State, e: MachineEvent)
    requires MachineCan(s, e) && (e.MPick1? || e.MPick2?)
    ensures InFlight(MachineNext(s, e).mw) == InFlight(s.mw) == None
  {
    hide FreePools, FreeMarkedPools;
  }

  lemma MachineKeepsClusters(s: State, e: MachineEvent)
    requires C.ClusterInv(s) && MachineCan(s, e)
    ensures C.ClusterInv(MachineNext(s, e))
  {
    hide C.ClusterInv, BegunMachine, PickMarked, PickAny, AdoptPatch, AskPriority, FinishProvision, ReleasePool,
         EndMachine, Picks, KnownOS, InFlight;
    if e.MAskPriority? { C.AskKeeps(s); } else { ClusterInvFrame(s, MachineNext(s, e)); }
  }

  lemma ClusterKeepsPools(s: State, e: ClusterEvent)
    requires PoolInv(s) && AccountInv(s) && ClusterCan(s, e)
    ensures PoolInv(ClusterNext(s, e)) && AccountInv(ClusterNext(s, e))
  {
    hide PoolInv, AccountInv, MarkPool;
    if e.CMark? {
      MarkKeeps(s);
      MarkAccounts(s);
    } else {
      hide ClusterNext, ClusterCan;
      ClusterFrame(s, e);
      PoolInvFrame(s, ClusterNext(s, e));
      AccountFrame(s, ClusterNext(s, e));
    }
  }

  lemma ClusterKeepsClusters(s: State, e: ClusterEvent)
    requires C.ClusterInv(s) && ClusterCan(s, e) && !CutsRelease(s, Cluster(e))
    ensures C.ClusterInv(ClusterNext(s, e))
  {
    hide C.ClusterInv, Picks, BegunCluster, PickIP, ClaimIP, PickPool, MarkPool, ReleaseIP, EndCluster;
    match e
    case CBegin(name, owned) => C.BeginKeeps(s, name, owned);
    case CPickIP(choice) => C.PickIPKeeps(s, choice);
    case CClaim => C.ClaimKeeps(s);
    case CPickPool(choice) => C.PickPoolKeeps(s, choice);
    case CMark => C.MarkKeeps(s);
    case CRelease => C.ReleaseKeeps(s);
    case CEnd => C.EndKeeps(s);
    case CCrash => C.CrashKeeps(s);
  }

  lemma PoolKeeps(s: State, e: PoolEvent)
    requires Inv(s) && PoolCan(s, e)
    ensures Inv(PoolNext(s, e))
  {
    hide PoolInv, AccountInv, CheckPool, C.ClusterInv;
    PoolFrame(s, e);
    ClusterInvFrame(s, PoolNext(s, e));
    if e.PPatch? {
      CheckKeeps(s, e.ssh);
      CheckAccounts(s, e.ssh);
    } else {
      PoolInvFrame(s, PoolNext(s, e));
      AccountFrame(s, PoolNext(s, e));
    }
  }

  lemma IPKeeps(s: State, e: IPEvent)
    requires Inv(s) && IPCan(s, e)
    ensures Inv(IPNext(s, e))
  {
    hide PoolInv, AccountInv, InitIP, C.ClusterInv;
    IPFrame(s, e);
    PoolInvFrame(s, IPNext(s, e));
    AccountFrame(s, IPNext(s, e));
    if e.IPatch? { C.InitKeeps(s); } else { ClusterInvFrame(s, IPNext(s, e)); }
  }

  lemma StepKeeps(s: State, e: Event)
    requires Inv(s) && Enabled(s, e) && !CutsRelease(s, e)
    ensures Inv(Next(s, e))
  {
    hide PoolInv, AccountInv, C.ClusterInv, UserNext, MachineNext, ClusterNext, PoolNext, IPNext, UserCan, MachineCan,
         ClusterCan, PoolCan, IPCan, CutsRelease;
    match e
    case User(u) => UserKeepsPools(s, u); UserKeepsClusters(s, u);
    case Machine(m) => MachineKeepsPools(s, m); MachineKeepsAccounts(s, m); MachineKeepsClusters(s, m);
    case Cluster(c) => ClusterKeepsPools(s, c); ClusterKeepsClusters(s, c);
    case Pool(p) => PoolKeeps(s, p);
    case IP(i) => IPKeeps(s, i);
  }

  lemma StartHolds()
    ensures Inv(START)
  {
  }

  lemma {:induction false} RunKeeps(s: State, es: seq<Event>)
    requires Inv(s) && IsRun(s, es) && Uncut(s, es)
    ensures Inv(End(s, es))
    decreases |es|
  {
    hide Inv, Next, Enabled, CutsRelease;
    if es != [] {
      StepKeeps(s, es[0]);
      RunKeeps(Next(s, es[0]), es[1..]);
    }
  }

  /** A state the controllers can bring about, no crash having cut a release. */
  ghost predicate Reachable(s: State) {
    exists es :: IsRun(START, es) && Uncut(START, es) && End(START, es) == s
  }

  lemma ReachableHolds(s: State)
    requires Reachable(s)
    ensures Inv(s)
  {
    hide Inv, IsRun, Uncut, End;
    var es :| IsRun(START, es) && Uncut(START, es) && End(START, es) == s;
    StartHolds();
    RunKeeps(START, es);
  }
}
