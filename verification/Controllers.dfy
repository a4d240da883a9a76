/** The controllers in the form they have: a reconcile reads an object, changes it in memory,
    talks to the API server in between and patches the object on its way out. Between any two
    of these steps the other controllers, the users and crashes may do anything they can.
    Every reconcile extends the run of the protocol by steps of its own, which are told one by
    one, so whatever holds on all runs holds of the controllers. */
module Controllers {
  import opened Strings
  import opened Labels
  import opened Protocol
  import opened Runs
  import opened Scenes
  import C = ClusterSafety
  import PS = PoolSafety
  import F = Fallback
  import A = Accounting
  import G = Guarantees
  import L = Lifecycle
  import R = Reports
  import Serial
  import CC = CloudConfigParser
  import P = Provisioning
  import SSH = SshClient

  // --------------------------------------------------------------------------- the run so far

  datatype Controller = HyperMachines | HyperClusters | HyperMachinePools | HyperIPPools

  predicate Of(e: Event, c: Controller) {
    match c
    case HyperMachines => e.Machine?
    case HyperClusters => e.Cluster?
    case HyperMachinePools => e.Pool?
    case HyperIPPools => e.IP?
  }

  /** The steps of one controller along a run. */
  function Own(es: seq<Event>, mine: Controller): seq<Event> {
    if es == [] then []
    else Own(es[..|es| - 1], mine) + if Of(es[|es| - 1], mine) then [es[|es| - 1]] else []
  }

  lemma OwnMore(es: seq<Event>, e: Event, mine: Controller)
    ensures Own(es + [e], mine) == Own(es, mine) + if Of(e, mine) then [e] else []
  {
    assert (es + [e])[..|es|] == es;
  }

  /** The run leads from the empty store to `s`, no crash cutting a release. */
  predicate RunTo(run: seq<Event>, s: State) {
    IsRun(START, run) && Uncut(START, run) && End(START, run) == s
  }

  lemma RunStarts()
    ensures RunTo([], START)
  {
  }

  lemma RunsOn(run: seq<Event>, s: State, e: Event)
    requires RunTo(run, s) && Enabled(s, e) && !CutsRelease(s, e)
    ensures RunTo(run + [e], Next(s, e))
  {
    hide IsRun, End, Uncut, Enabled, Next, CutsRelease;
    One(s, e);
    OneUncut(s, e);
    Join(START, run, [e]);
  }

  lemma OneUncut(s: State, e: Event)
    requires Enabled(s, e) && !CutsRelease(s, e)
    ensures IsRun(s, [e]) && Uncut(s, [e])
  {
    hide Enabled, Next, CutsRelease;
    One(s, e);
    assert [e][0] == e && [e][1..] == [];
  }

  lemma RunReaches(run: seq<Event>, s: State)
    requires RunTo(run, s)
    ensures Reachable(s)
  {
    hide IsRun, End, Uncut;
  }

  /** What a worker is about to patch is there. */
  lemma Ready(s: State)
    requires Reachable(s)
    ensures s.mw.MAdopt? || s.mw.MClean? ==> s.mw.pool in s.pools
    ensures s.cw.CClaimIP? || s.cw.CFree? ==> s.cw.ip in s.ips
    ensures s.cw.CMarkPool? ==> s.cw.pool in s.pools
    ensures s.pw.PCheck? ==> s.pw.name in s.pools
    ensures s.iw.IInit? ==> s.iw.name in s.ips
  {
    hide Reachable, IsRun, End, Uncut, A.AccountInv, PS.MachinesOk, C.ClustersOk, C.GivenOk, PS.Exclusive,
         C.ExclusiveIPs;
    ReachableHolds(s);
    F.Sighted(s);
  }

  // --------------------------------------------------------------------------- machine scope

  /** utils/scope/machine.go: the object in memory, and the copy its patch helper was made of. */
  class MachineScope {
    const helper: HyperMachine
    var hyperMachine: HyperMachine

    constructor (hm: HyperMachine)
      ensures helper == hm && hyperMachine == hm
    {
      helper, hyperMachine := hm, hm;
    }

    method SetPoolRef(pool: string)
      modifies this`hyperMachine
      ensures hyperMachine == old(hyperMachine).(poolRef := Some(pool))
    {
      hyperMachine := hyperMachine.(poolRef := Some(pool));
    }

    method SetReady()
      modifies this`hyperMachine
      ensures hyperMachine == old(hyperMachine).(ready := true)
    {
      hyperMachine := hyperMachine.(ready := true);
    }

    method SetProviderID(hostName: string)
      modifies this`hyperMachine
      ensures hyperMachine == old(hyperMachine).(providerID := "hyper:///" + hostName)
    {
      hyperMachine := hyperMachine.(providerID := "hyper:///" + hostName);
    }

    method SetAddress(address: string)
      modifies this`hyperMachine
      ensures hyperMachine == old(hyperMachine).(addresses := [address])
    {
      hyperMachine := hyperMachine.(addresses := [address]);
    }
  }

  // ------------------------------------------------------------------------------- the store

  /** `Items[0]` of a list. */
  method FirstItem(matching: set<string>) returns (item: Option<string>)
    ensures Picks(item, matching)
  {
    if matching == {} { return None; }
    var p :| p in matching;
    return Some(p);
  }

  /** What a pool check makes of the pool in memory. */
  method CheckHyperMachinePool(snap: HyperMachinePool, ssh: SshResult) returns (hmp: HyperMachinePool)
    ensures hmp == CheckedPool(snap, ssh)
    ensures hmp.address == snap.address && PoolValid in hmp.labels
    ensures
      if PoolValid in snap.labels && snap.labels[PoolValid] in {"1", "t", "T", "true", "TRUE", "True"} then hmp == snap
      else if ssh.Up? then
        && hmp.labels[PoolValid] == "true" && hmp.status.error == snap.status.error && hmp.status.os == ssh.os
        && hmp.status.kernel == ssh.kernel && hmp.status.hostName == ssh.hostName && hmp.status.nic == ssh.nic
      else
        hmp.labels[PoolValid] == "false" && hmp.status == snap.status.(error := ssh.error)
    ensures PoolValid !in snap.labels ==> ClusterName in hmp.labels && hmp.labels[ClusterName] == ""
  {
    CheckedText();
    hmp := snap;
    if PoolValid !in hmp.labels {
      hmp := hmp.(labels := hmp.labels[PoolValid := "false"]);
      hmp := hmp.(labels := hmp.labels[ClusterName := ""]);
    }
    if !ParseBool(hmp.labels[PoolValid]) {
      match ssh
      case Down(error) =>
        hmp := hmp.(labels := hmp.labels[PoolValid := "false"]);
        hmp := hmp.(status := hmp.status.(error := error));
      case Up(os, kernel, hostName, nic) =>
        hmp := hmp.(labels := hmp.labels[PoolValid := "true"]);
        hmp := hmp.(status := hmp.status.(os := os, kernel := kernel, hostName := hostName, nic := nic));
    }
  }

  /** A node that is to be provisioned: the bootstrap secret, if it is set by now; whether the node
      can be reached; what its role, version and scripts are; how the file transfer chunks the
      scripts and which run command fails; and how a pass ends with text that is not interpreted. */
  datatype Setup = Setup(secret: Option<string>, connects: bool, draft: P.Job, short: nat, failing: nat, guess: bool)

  /** The API server's objects, the reconciles under way, the history of losses and priorities,
      which nothing reads, and the run so far. */
  class Manager {
    var pools: map<string, HyperMachinePool>
    var ips: map<string, HyperIPPool>
    var machines: map<string, HyperMachine>
    var clusters: map<string, HyperCluster>
    var mw: MachineWorker
    var cw: ClusterWorker
    var pw: PoolWorker
    var iw: IPWorker
    var lost: map<string, Cause>
    var given: map<string, seq<string>>
    ghost var run: seq<Event>

    function View(): State
      reads this
    {
      State(pools, ips, machines, clusters, mw, cw, pw, iw, lost, given)
    }

    ghost predicate Traced()
      reads this
    {
      RunTo(run, View())
    }

    constructor ()
      ensures View() == START && Traced() && run == []
    {
      pools, ips, machines, clusters := map[], map[], map[], map[];
      mw, cw, pw, iw := MIdle, CIdle, PIdle, IIdle;
      lost, given := map[], map[];
      run := [];
      new;
      RunStarts();
    }

    /** The controller `mine` has made a step. */
    ghost method Note(mine: Controller, s: State, e: Event)
      requires RunTo(run, s) && Enabled(s, e) && !CutsRelease(s, e) && Next(s, e) == View() && Of(e, mine)
      modifies `run
      ensures Traced() && Reachable(View())
      ensures run == old(run) + [e] && Own(run, mine) == old(Own(run, mine)) + [e]
    {
      hide RunTo, Enabled, CutsRelease, Next, Own, Of, Reachable;
      RunsOn(run, s, e);
      OwnMore(run, e, mine);
      run := run + [e];
      RunReaches(run, View());
    }

    ghost method NoteMachine(s: State, e: MachineEvent)
      requires RunTo(run, s) && MachineCan(s, e) && !e.MCrash? && MachineNext(s, e) == View()
      modifies `run
      ensures Traced() && Reachable(View()) && run == old(run) + [Machine(e)]
      ensures Own(run, HyperMachines) == old(Own(run, HyperMachines)) + [Machine(e)]
    {
      hide RunTo, MachineCan, MachineNext, Own, Reachable;
      Note(HyperMachines, s, Machine(e));
    }

    ghost method NoteCluster(s: State, e: ClusterEvent)
      requires RunTo(run, s) && ClusterCan(s, e) && !e.CCrash? && ClusterNext(s, e) == View()
      modifies `run
      ensures Traced() && Reachable(View()) && run == old(run) + [Cluster(e)]
      ensures Own(run, HyperClusters) == old(Own(run, HyperClusters)) + [Cluster(e)]
    {
      hide RunTo, ClusterCan, ClusterNext, Own, Reachable;
      Note(HyperClusters, s, Cluster(e));
    }

    ghost method NotePool(s: State, e: PoolEvent)
      requires RunTo(run, s) && PoolCan(s, e) && PoolNext(s, e) == View()
      modifies `run
      ensures Traced() && Reachable(View()) && run == old(run) + [Pool(e)]
      ensures Own(run, HyperMachinePools) == old(Own(run, HyperMachinePools)) + [Pool(e)]
    {
      hide RunTo, PoolCan, PoolNext, Own, Reachable;
      Note(HyperMachinePools, s, Pool(e));
    }

    ghost method NoteIP(s: State, e: IPEvent)
      requires RunTo(run, s) && IPCan(s, e) && IPNext(s, e) == View()
      modifies `run
      ensures Traced() && Reachable(View()) && run == old(run) + [IP(e)]
      ensures Own(run, HyperIPPools) == old(Own(run, HyperIPPools)) + [IP(e)]
    {
      hide RunTo, IPCan, IPNext, Own, Reachable;
      Note(HyperIPPools, s, IP(e));
    }

    // ------------------------------------------------------------- HyperMachine controller

    /** `Reconcile` up to the first list, or up to the pool of a deleted machine. */
    method BeginMachine(name: string, owned: bool, cluster: string, hcName: string, provisioning: bool)
      requires mw.MIdle?
      modifies `mw
      ensures mw == BegunMachine(old(View()), name, owned, cluster, hcName, provisioning)
    {
      if name !in machines { return; }
      var hm := machines[name];
      if hm.deleting {
        if hm.poolRef.None? { mw := MClose(name, hm, hm.(finalizer := false)); return; }
        if hm.poolRef.value !in pools { return; }
        mw := MClean(name, hm, hm.poolRef.value, pools[hm.poolRef.value]);
        return;
      }
      if !owned || hcName !in clusters { return; }
      if !hm.finalizer { mw := MClose(name, hm, hm.(finalizer := true)); return; }
      if hm.ready || hm.providerID != "" || !provisioning { mw := MClose(name, hm, hm); return; }
      mw := MList1(name, hm, cluster, clusters[hcName]);
    }

    /** The list of `getHyperMachinePool` with the control-plane label. */
    method ListMarkedPools() returns (item: Option<string>)
      requires mw.MList1?
      modifies `mw
      ensures Picks(item, FreeMarkedPools(old(View()))) && View() == PickMarked(old(View()), item)
      ensures Selected(item, pools, map[PoolValid := "true", ControlPlane := "", ClusterName := ""])
    {
      hide IsFree, IsMarked, Selected;
      item := FirstItem(set p | p in pools && IsFree(pools[p]) && IsMarked(pools[p]));
      MarkedSelected(View(), item);
      if item.Some? {
        mw := MAdopt(mw.name, mw.snap, mw.cluster, mw.hc, item.value, pools[item.value]);
      } else {
        mw := MList2(mw.name, mw.snap, mw.cluster, mw.hc);
      }
    }

    /** The list without it. */
    method ListFreePools() returns (item: Option<string>)
      requires mw.MList2?
      modifies `mw
      ensures Picks(item, FreePools(old(View()))) && View() == PickAny(old(View()), item)
      ensures Selected(item, pools, map[PoolValid := "true", ClusterName := ""])
    {
      hide IsFree, Selected;
      item := FirstItem(set p | p in pools && IsFree(pools[p]));
      FreeSelected(View(), item);
      if item.Some? {
        mw := MAdopt(mw.name, mw.snap, mw.cluster, mw.hc, item.value, pools[item.value]);
      } else {
        mw := MClose(mw.name, mw.snap, mw.snap);
      }
    }

    method AdoptOrphan()
      requires mw.MAdopt? && mw.pool in pools
      modifies `pools, `mw
      ensures View() == AdoptPatch(old(View()))
    {
      var oldhmp, newhmp := mw.hmp, mw.hmp;
      newhmp := newhmp.(labels := newhmp.labels[ClusterName := mw.cluster]);
      pools := pools[mw.pool := PatchPool(oldhmp, newhmp, pools[mw.pool])];
      mw := MProvision(mw.name, mw.snap, mw.hc, mw.pool, mw.hmp, false);
    }

    /** Bumps the counter of the cluster's IP pool and hands out the priority. */
    method HipNum2Pri() returns (hipNum: string)
      requires mw.MProvision? && !mw.asked
      modifies `ips, `mw, `given
      ensures View() == AskPriority(old(View()))
      ensures
        if IPPoolName in mw.hc.labels && mw.hc.labels[IPPoolName] in old(ips)
           && IPPool in old(ips)[mw.hc.labels[IPPoolName]].labels
           && Atoi(old(ips)[mw.hc.labels[IPPoolName]].labels[IPPool]).Some?
        then
          var i := mw.hc.labels[IPPoolName];
          var num := Atoi(old(ips)[i].labels[IPPool]).value;
          && hipNum == Itoa(Wrap64(100 - num))
          && ips == old(ips)[i := old(ips)[i].(labels := old(ips)[i].labels[IPPool := Itoa(Wrap64(num + 1))])]
        else hipNum == "" && ips == old(ips)
    {
      hide Atoi, Itoa, Wrap64;
      hipNum := "";
      mw := mw.(asked := true);
      if IPPoolName in mw.hc.labels {
        var i := mw.hc.labels[IPPoolName];
        if i in ips && IPPool in ips[i].labels {
          var num := Atoi(ips[i].labels[IPPool]);
          if num.Some? {
            var newhip := ips[i].(labels := ips[i].labels[IPPool := Itoa(Wrap64(num.value + 1))]);
            hipNum := Itoa(Wrap64(100 - num.value));
            ips := ips[i := newhip];
            if i in given { given := given[i := given[i] + [hipNum]]; }
          }
        }
      }
    }

    /** The end of `reconcileMachineNormal`: the pool reference set by `adoptOrphan`, and after
        successful provisioning the ready flag, provider ID and address. */
    method SetProvisioned(ok: bool)
      requires mw.MProvision?
      modifies `mw
      ensures View() == FinishProvision(old(View()), ok)
    {
      var scope := new MachineScope(mw.snap);
      scope.SetPoolRef(mw.pool);
      if ok {
        scope.SetReady();
        scope.SetProviderID(mw.hmp.status.hostName);
        scope.SetAddress(Split(mw.hmp.address, ":")[0]);
      }
      mw := MClose(mw.name, scope.helper, scope.hyperMachine);
    }

    /** The second half of `doCleanHyperMachinePool`. */
    method CleanPool()
      requires mw.MClean? && mw.pool in pools
      modifies `pools, `mw
      ensures View() == ReleasePool(old(View()))
    {
      hide PatchPool;
      var oldhmp, newhmp := mw.hmp, mw.hmp;
      newhmp := newhmp.(labels := newhmp.labels[ClusterName := ""]);
      if ControlPlane in newhmp.labels { newhmp := newhmp.(labels := newhmp.labels - {ControlPlane}); }
      Unmarks(mw.hmp.labels[ClusterName := ""]);
      pools := pools[mw.pool := PatchPool(oldhmp, newhmp, pools[mw.pool])];
      mw := MReleased(mw.name, mw.snap);
    }

    /** `Close` of the scope, or the patch that ends a deletion. */
    method CloseMachineScope()
      requires mw.MClose? || mw.MAbandon? || mw.MReleased?
      modifies `machines, `mw, `lost
      ensures View() == EndMachine(old(View()))
    {
      var mem := if mw.MClose? then mw.mem else mw.snap.(finalizer := false);
      var before := mw.snap.poolRef;
      if before.Some? && mw.MAbandon? { lost := lost[before.value := Abandoned]; }
      if before.Some? && mw.MClose? && mem.poolRef != before { lost := lost[before.value := Superseded]; }
      machines := CloseMachine(machines, mw.name, mw.snap, mem);
      mw := MIdle;
    }

    // ------------------------------------------------------------- HyperCluster controller

    method BeginCluster(name: string, owned: bool)
      requires cw.CIdle?
      modifies `cw
      ensures cw == BegunCluster(old(View()), name, owned)
    {
      if name !in clusters || !owned { return; }
      var hc := clusters[name];
      if !hc.finalizer { cw := CClose(name, hc, hc.(finalizer := true)); return; }
      if hc.deleting {
        if IPPoolName !in hc.labels { cw := CClose(name, hc, hc.(finalizer := false)); return; }
        var val := hc.labels[IPPoolName];
        if val !in ips { return; }
        cw := CFree(name, hc, val, ips[val]);
        return;
      }
      if hc.host != "" || hc.ready { cw := CClose(name, hc, hc); return; }
      cw := CListIP(name, hc);
    }

    method ListIPs() returns (item: Option<string>)
      requires cw.CListIP?
      modifies `cw
      ensures Picks(item, FreeIPs(old(View()))) && View() == PickIP(old(View()), item)
      ensures SelectedIP(item, ips, map[IPPool := ""])
    {
      hide SelectedIP;
      item := FirstItem(set i | i in ips && At(ips[i].labels, IPPool) == Some(""));
      IPSelected(View(), item);
      if item.Some? {
        cw := CClaimIP(cw.name, cw.snap, item.value, ips[item.value]);
      } else {
        cw := CListPool(cw.name, cw.snap, cw.snap);
      }
    }

    /** The patch of `getAPIEndpointfromHip`. */
    method ClaimHip()
      requires cw.CClaimIP? && cw.ip in ips
      modifies `ips, `cw, `given
      ensures View() == ClaimIP(old(View()))
    {
      var oldhip, newhip := cw.hip, cw.hip;
      newhip := newhip.(labels := newhip.labels[IPPool := "0"]);
      ips := ips[cw.ip := PatchIP(oldhip, newhip, ips[cw.ip])];
      given := given[cw.ip := []];
      var hc := cw.snap.(labels := cw.snap.labels[IPPoolName := cw.ip]);
      if newhip.ip != "" {
        cw := CClose(cw.name, cw.snap, hc.(host := newhip.ip, port := 6443, ready := true));
      } else {
        cw := CListPool(cw.name, cw.snap, hc);
      }
    }

    method ListValidPools() returns (item: Option<string>)
      requires cw.CListPool?
      modifies `cw
      ensures Picks(item, ValidPools(old(View()))) && View() == PickPool(old(View()), item)
      ensures Selected(item, pools, map[PoolValid := "true"])
    {
      hide Valid, Selected;
      item := FirstItem(set p | p in pools && Valid(pools[p].labels));
      ValidSelected(View(), item);
      if item.Some? {
        cw := CMarkPool(cw.name, cw.snap, cw.mem, item.value, pools[item.value]);
      } else {
        cw := CClose(cw.name, cw.snap, cw.mem);
      }
    }

    /** The patch of `getAPIEndpointfromHmp`. */
    method MarkHmp()
      requires cw.CMarkPool? && cw.pool in pools
      modifies `pools, `cw
      ensures View() == MarkPool(old(View()))
    {
      var oldhmp, newhmp := cw.hmp, cw.hmp;
      newhmp := newhmp.(labels := newhmp.labels[ControlPlane := ""]);
      pools := pools[cw.pool := PatchPool(oldhmp, newhmp, pools[cw.pool])];
      var apiEndpoint := Split(oldhmp.address, ":")[0];
      if apiEndpoint == "" {
        cw := CClose(cw.name, cw.snap, cw.mem);
      } else {
        cw := CClose(cw.name, cw.snap, cw.mem.(host := apiEndpoint, port := 6443, ready := true));
      }
    }

    method DeleteHip()
      requires cw.CFree? && cw.ip in ips
      modifies `ips, `cw, `given
      ensures View() == ReleaseIP(old(View()))
    {
      var oldhip, newhip := cw.hip, cw.hip;
      newhip := newhip.(labels := newhip.labels[IPPool := ""]);
      ips := ips[cw.ip := PatchIP(oldhip, newhip, ips[cw.ip])];
      given := given - {cw.ip};
      cw := CReleased(cw.name, cw.snap);
    }

    method CloseClusterScope()
      requires cw.CClose? || cw.CReleased?
      modifies `clusters, `cw
      ensures View() == EndCluster(old(View()))
    {
      var mem := if cw.CClose? then cw.mem else cw.snap.(finalizer := false);
      clusters := CloseCluster(clusters, cw.name, cw.snap, mem);
      cw := CIdle;
    }

    // ----------------------------------------------------------- the two pool controllers

    /** The rest of the pool controller's `Reconcile`: `initHyperMachinePool`, `validSSH` and the
        deferred patch. */
    method ClosePool(ssh: SshResult)
      requires pw.PCheck? && pw.name in pools
      modifies `pools, `pw, `lost
      ensures View() == CheckPool(old(View()), ssh)
    {
      hide PatchPool, CheckedPool;
      if PoolValid !in pw.snap.labels { lost := lost - {pw.name}; }
      var hmp := CheckHyperMachinePool(pw.snap, ssh);
      pools := pools[pw.name := PatchPool(pw.snap, hmp, pools[pw.name])];
      pw := PIdle;
    }

    /** The IP controller's patch. */
    method CloseIP()
      requires iw.IInit? && iw.name in ips
      modifies `ips, `iw
      ensures View() == InitIP(old(View()))
    {
      var hip := iw.snap;
      if IPPool !in hip.labels { hip := hip.(labels := hip.labels[IPPool := ""]); }
      ips := ips[iw.name := PatchIP(iw.snap, hip, ips[iw.name])];
      iw := IIdle;
    }

    // ---------------------------------------------------------------------- everyone else

    method Become(s: State)
      modifies `pools, `ips, `machines, `clusters, `mw, `cw, `pw, `iw, `lost, `given
      ensures View() == s
    {
      pools, ips, machines, clusters := s.pools, s.ips, s.machines, s.clusters;
      mw, cw, pw, iw := s.mw, s.cw, s.pw, s.iw;
      lost, given := s.lost, s.given;
    }

    /** What anyone but one controller does between two of its steps: those events of a schedule
        that can happen, no crash cutting a release. */
    method Others(mine: Controller, schedule: seq<Event>)
      requires Traced()
      modifies this
      ensures Traced() && Reachable(View()) && old(run) <= run && Own(run, mine) == old(Own(run, mine))
      ensures Spared(mine, old(View()), View())
      ensures schedule == [] ==> View() == old(View()) && run == old(run)
    {
      hide RunTo, Enabled, Next, CutsRelease, Of, Own, Reachable, Spared;
      ghost var s0, run0 := View(), run;
      RunReaches(run, s0);
      SparedNow(mine, s0);
      for k := 0 to |schedule|
        invariant Traced() && Reachable(View()) && Spared(mine, s0, View())
        invariant run0 <= run && Own(run, mine) == Own(run0, mine)
        invariant k == 0 ==> View() == s0 && run == run0
      {
        var s, e := View(), schedule[k];
        if Enabled(s, e) && !Of(e, mine) && !CutsRelease(s, e) {
          Become(Next(s, e));
          RunsOn(run, s, e);
          OwnMore(run, e, mine);
          run := run + [e];
          RunReaches(run, View());
          OthersSpare(s, e, mine);
          SparedOn(mine, s0, s, View());
        }
      }
    }

    // ------------------------------------------------------------------------- reconciles

    /** The list with the control-plane label. */
    method FindMarked(schedule: seq<Event>) returns (item: Option<string>)
      requires Traced() && mw.MList1?
      modifies this
      ensures Traced() && Reachable(View()) && old(run) <= run
      ensures Own(run, HyperMachines) == old(Own(run, HyperMachines)) + [Machine(MPick1(item))]
      ensures Selected(item, old(pools), map[PoolValid := "true", ControlPlane := "", ClusterName := ""])
      ensures mw == if item.Some? then old(MAdopt(mw.name, mw.snap, mw.cluster, mw.hc, item.value, pools[item.value]))
                    else old(MList2(mw.name, mw.snap, mw.cluster, mw.hc))
      ensures schedule == [] ==> pools == old(pools) && machines == old(machines)
    {
      hide RunTo, Own, Reachable, FreeMarkedPools, Picks, PickMarked, MachineCan, MachineNext, Matches, Spared;
      ghost var s := View();
      item := ListMarkedPools();
      MarkedListed(s, item);
      NoteMachine(s, MPick1(item));
      Others(HyperMachines, schedule);
      SameWorker(HyperMachines, PickMarked(s, item), View());
    }

    /** The list without it. */
    method FindFree(schedule: seq<Event>) returns (item: Option<string>)
      requires Traced() && mw.MList2?
      modifies this
      ensures Traced() && Reachable(View()) && old(run) <= run
      ensures Own(run, HyperMachines) == old(Own(run, HyperMachines)) + [Machine(MPick2(item))]
      ensures Selected(item, old(pools), map[PoolValid := "true", ClusterName := ""])
      ensures mw == if item.Some? then old(MAdopt(mw.name, mw.snap, mw.cluster, mw.hc, item.value, pools[item.value]))
                    else old(MClose(mw.name, mw.snap, mw.snap))
      ensures schedule == [] ==> machines == old(machines)
    {
      hide RunTo, Own, Reachable, FreePools, Picks, PickAny, MachineCan, MachineNext, Matches, Spared;
      ghost var s := View();
      item := ListFreePools();
      FreeListed(s, item);
      NoteMachine(s, MPick2(item));
      Others(HyperMachines, schedule);
      SameWorker(HyperMachines, PickAny(s, item), View());
    }

    method Adopt(schedule: seq<Event>)
      requires Traced() && mw.MAdopt?
      modifies this
      ensures Traced() && Reachable(View()) && old(run) <= run
      ensures Own(run, HyperMachines) == old(Own(run, HyperMachines)) + [Machine(MAdoptPatch)]
      ensures mw == old(MProvision(mw.name, mw.snap, mw.hc, mw.pool, mw.hmp, false))
      ensures schedule == [] ==> machines == old(machines)
    {
      hide RunTo, Own, Reachable, AdoptPatch, MachineCan, MachineNext, Spared;
      ghost var s := View();
      RunReaches(run, s);
      Ready(s);
      AdoptOrphan();
      OrphanAdopted(s);
      NoteMachine(s, MAdoptPatch);
      Others(HyperMachines, schedule);
      SameWorker(HyperMachines, AdoptPatch(s), View());
    }

    /** `getHyperMachinePool` with its deferred `adoptOrphan`. With nobody coming in between, a
        pool is adopted exactly if one is free, and one with the control-plane label if there
        is one. */
    method GetHyperMachinePool(others: nat -> seq<Event>) returns (adopted: Option<string>, ghost marked: bool)
      requires Traced() && mw.MList1?
      modifies this
      ensures Traced() && Reachable(View()) && old(run) <= run
      ensures mw.MProvision? || mw.MClose?
      ensures if adopted.Some? then
                mw.MProvision? && mw == MProvision(old(mw.name), old(mw.snap), old(mw.hc), adopted.value, mw.hmp, false)
              else mw == MClose(old(mw.name), old(mw.snap), old(mw.snap))
      ensures Own(run, HyperMachines) == old(Own(run, HyperMachines)) + SearchSteps(adopted, marked)
      ensures marked ==> adopted.Some?
      ensures (forall k :: others(k) == []) ==>
        && machines == old(machines)
        && Selected(if marked then adopted else None, old(pools),
                    map[PoolValid := "true", ControlPlane := "", ClusterName := ""])
        && (!marked ==> Selected(adopted, old(pools), map[PoolValid := "true", ClusterName := ""]))
    {
      hide RunTo, Own, Reachable, Selected;
      ghost var own := Own(run, HyperMachines);
      adopted := FindMarked(others(0));
      marked := adopted.Some?;
      if adopted.None? {
        adopted := FindFree(others(1));
        assert own + [Machine(MPick1(None))] + [Machine(MPick2(adopted))] ==
               own + [Machine(MPick1(None)), Machine(MPick2(adopted))];
      }
      if adopted.Some? {
        ghost var so_far := Own(run, HyperMachines);
        Adopt(others(2));
        assert so_far + [Machine(MAdoptPatch)] == own + SearchSteps(adopted, marked);
      }
    }

    /** `hipNum2Pri` as a step: on a claimed IP it gives out the priority 100 less the number of
        those given out since the claim, and counts it. */
    method Ask(schedule: seq<Event>) returns (hipNum: string)
      requires Traced() && mw.MProvision? && !mw.asked && KnownOS(mw.hmp)
      modifies this
      ensures Traced() && Reachable(View()) && old(run) + [Machine(MAskPriority)] <= run
      ensures Own(run, HyperMachines) == old(Own(run, HyperMachines)) + [Machine(MAskPriority)]
      ensures mw == old(mw).(asked := true) && R.ValidKept(old(View()), View())
      ensures IPPoolName in old(mw.hc.labels) && old(mw.hc.labels)[IPPoolName] in old(given) ==>
        Counted(old(View()), old(run) + [Machine(MAskPriority)], old(mw.hc.labels)[IPPoolName], hipNum)
      ensures IPPoolName !in old(mw.hc.labels) ==> hipNum == ""
    {
      hide RunTo, Own, Reachable, AskPriority, MachineCan, MachineNext, KnownOS, Spared, Counted, Atoi, Itoa, Wrap64,
           R.ValidKept;
      ghost var s := View();
      RunReaches(run, s);
      hipNum := HipNum2Pri();
      Asked(s);
      NoteMachine(s, MAskPriority);
      if IPPoolName in s.mw.hc.labels && s.mw.hc.labels[IPPoolName] in s.given {
        AskedCounts(s, run, s.mw.hc.labels[IPPoolName], hipNum);
      }
      Others(HyperMachines, schedule);
      SameWorker(HyperMachines, AskPriority(s), View());
      KeptOn(s, AskPriority(s), View());
    }

    method Finish(ok: bool, schedule: seq<Event>)
      requires Traced() && mw.MProvision?
      modifies this
      ensures Traced() && Reachable(View()) && old(run) <= run
      ensures Own(run, HyperMachines) == old(Own(run, HyperMachines)) + [Machine(MFinish(ok))]
      ensures R.ValidKept(old(View()), View())
      ensures mw.MClose? && mw.name == old(mw.name) && mw.snap == old(mw.snap)
      ensures mw.mem.poolRef == old(Some(mw.pool)) && mw.mem.ready == (ok || old(mw.snap.ready))
      ensures ok ==> mw.mem.providerID == "hyper:///" + old(mw.hmp.status.hostName)
    {
      hide RunTo, Own, Reachable, FinishProvision, MachineCan, MachineNext, Spared, HostPart, R.ValidKept;
      ghost var s := View();
      RunReaches(run, s);
      SetProvisioned(ok);
      Finished(s, ok);
      NoteMachine(s, MFinish(ok));
      Others(HyperMachines, schedule);
      SameWorker(HyperMachines, FinishProvision(s, ok), View());
      KeptOn(s, FinishProvision(s, ok), View());
    }

    /** `doProvisioning`. A node with one of the two known operating systems gets a provisioning
        pass, any other nothing; a control-plane node, and no other, asks for a priority once its
        secret is parsed and its node connected, and gets it written into its script. */
    method DoProvisioning(setup: Setup, host: SSH.RemoteHost, schedule: seq<Event>)
      returns (outcome: Option<P.Outcome>, hipNum: string, ghost before: map<string, string>)
      requires Traced() && mw.MProvision? && !mw.asked && setup.secret.Some?
      modifies this, host
      ensures Traced() && Reachable(View()) && old(run) <= run && R.ValidKept(old(View()), View())
      ensures outcome.Some? <==> old(mw.hmp.status.os) in {"ubuntu", "centos"}
      ensures outcome.None? ==> host.files == old(host.files) && host.ran == old(host.ran)
      ensures outcome.Some? ==>
        Performed(outcome.value, setup, old(mw.hmp.status), old(mw.hc.host), hipNum, before, host.node, host.files)
      ensures var asks := outcome.Some? && CC.Parse(Lines(setup.secret.value), 0).Parsed? && setup.connects &&
                          setup.draft.isMaster;
        && mw == old(mw).(asked := asks)
        && Own(run, HyperMachines) ==
             old(Own(run, HyperMachines)) + (if asks then [Machine(MAskPriority)] else [])
        && (asks ==> old(run) + [Machine(MAskPriority)] <= run)
        && (asks && IPPoolName in old(mw.hc.labels) && old(mw.hc.labels)[IPPoolName] in old(given) ==>
              Counted(old(View()), old(run) + [Machine(MAskPriority)], old(mw.hc.labels)[IPPoolName], hipNum))
    {
      hide RunTo, Own, Reachable, KnownOS, Counted, R.ValidKept, CC.Parse, Lines, Performed;
      ghost var s := View();
      RunReaches(run, s);
      KeptNow(s);
      Systems(mw.hmp);
      outcome, hipNum, before := None, "", host.files;
      if KnownOS(mw.hmp) {
        var status, vip := mw.hmp.status, mw.hc.host;
        var parsed := CC.Parse(Lines(setup.secret.value), 0).Parsed?;
        if parsed && setup.connects && setup.draft.isMaster { hipNum := Ask(schedule); }
        var r, left := Perform(host, setup, status, vip, hipNum);
        outcome, before := Some(r), left;
      }
    }

    /** `reconcileMachineNormal` from the bootstrap data on. */
    method ProvisionNode(setup: Setup, host: SSH.RemoteHost, others: nat -> seq<Event>)
      returns (ok: bool, outcome: Option<P.Outcome>, hipNum: string, ghost before: map<string, string>)
      requires Traced() && mw.MProvision? && !mw.asked
      modifies this, host
      ensures Traced() && Reachable(View()) && old(run) <= run && R.ValidKept(old(View()), View())
      ensures mw.MClose? && mw.name == old(mw.name) && mw.snap == old(mw.snap)
      ensures mw.mem.poolRef == old(Some(mw.pool)) && mw.mem.ready == (ok || old(mw.snap.ready))
      ensures ok ==> mw.mem.providerID == "hyper:///" + old(mw.hmp.status.hostName)
      ensures ok <==>
        && setup.secret.Some?
        && (outcome.None? || outcome == Some(P.Done) || (outcome == Some(P.Unknown) && setup.guess))
      ensures outcome.Some? <==> setup.secret.Some? && old(mw.hmp.status.os) in {"ubuntu", "centos"}
      ensures outcome.None? ==> host.files == old(host.files) && host.ran == old(host.ran)
      ensures outcome.Some? ==>
        Performed(outcome.value, setup, old(mw.hmp.status), old(mw.hc.host), hipNum, before, host.node, host.files)
      ensures var asks := outcome.Some? && CC.Parse(Lines(setup.secret.value), 0).Parsed? && setup.connects &&
                          setup.draft.isMaster;
        && Own(run, HyperMachines) ==
             old(Own(run, HyperMachines)) + (if asks then [Machine(MAskPriority)] else []) + [Machine(MFinish(ok))]
        && (asks ==> old(run) + [Machine(MAskPriority)] <= run)
        && (asks && IPPoolName in old(mw.hc.labels) && old(mw.hc.labels)[IPPoolName] in old(given) ==>
              Counted(old(View()), old(run) + [Machine(MAskPriority)], old(mw.hc.labels)[IPPoolName], hipNum))
    {
      hide RunTo, Own, Reachable, Counted, R.ValidKept, CC.Parse, Lines, Performed;
      ghost var s := View();
      KeptNow(s);
      ok, outcome, hipNum, before := false, None, "", host.files;
      if setup.secret.Some? {
        outcome, hipNum, before := DoProvisioning(setup, host, others(3));
        ok := outcome.None? || outcome == Some(P.Done) || (outcome == Some(P.Unknown) && setup.guess);
      }
      ghost var s1 := View();
      Finish(ok, others(4));
      KeptOn2(s, s1, View());
    }

    /** `reconcileMachineDelete` up to its last patch. */
    method CleanNode(connects: bool, schedule: seq<Event>)
      requires Traced() && mw.MClean?
      modifies this
      ensures Traced() && Reachable(View()) && old(run) <= run
      ensures Own(run, HyperMachines) ==
              old(Own(run, HyperMachines)) + [Machine(if connects then MRelease else MUnreachable)]
      ensures mw == if connects then MReleased(old(mw.name), old(mw.snap)) else MAbandon(old(mw.name), old(mw.snap))
    {
      hide RunTo, Own, Reachable, ReleasePool, PatchPool, Spared, MachineCan, MachineNext;
      ghost var s := View();
      RunReaches(run, s);
      Ready(s);
      Cleaned(s);
      if connects {
        CleanPool();
        NoteMachine(s, MRelease);
      } else {
        mw := MAbandon(mw.name, mw.snap);
        NoteMachine(s, MUnreachable);
      }
      s := View();
      Others(HyperMachines, schedule);
      SameWorker(HyperMachines, s, View());
    }

    /** The last patch of a reconcile. */
    method EndReconcile()
      requires Traced() && (mw.MClose? || mw.MAbandon? || mw.MReleased?)
      modifies this
      ensures Traced() && Reachable(View()) && run == old(run) + [Machine(MEnd)] && mw.MIdle? && pools == old(pools)
      ensures Own(run, HyperMachines) == old(Own(run, HyperMachines)) + [Machine(MEnd)]
      ensures old(mw).MClose? && old(mw).mem.poolRef.Some? ==>
        old(mw).name in machines
        && machines[old(mw).name] == old(mw).mem.(deleting := machines[old(mw).name].deleting)
      ensures old(mw).MClose? && !old(mw).mem.finalizer ==> old(mw).name !in machines
      ensures !old(mw).MClose? && old(mw).snap.poolRef.Some? ==>
        && var p := old(mw).snap.poolRef.value;
        && old(mw).name !in machines && p in pools
        && (Matches(pools[p].labels, map[PoolValid := "true", ClusterName := ""]) <==> old(mw).MReleased?)
    {
      hide RunTo, Own, Reachable, EndMachine, MachineCan, MachineNext, Matches;
      ghost var s := View();
      RunReaches(run, s);
      Ends(s);
      CloseMachineScope();
      NoteMachine(s, MEnd);
    }

    /** `Reconcile` up to where a pool is looked for, cleaned, or nothing is left but the patch. */
    method Start(name: string, owned: bool, cluster: string, hcName: string, provisioning: bool, schedule: seq<Event>)
      requires Traced() && mw.MIdle? && cluster != ""
      modifies this
      ensures Traced() && Reachable(View()) && old(run) <= run
      ensures Own(run, HyperMachines) ==
              old(Own(run, HyperMachines)) + [Machine(MBegin(name, owned, cluster, hcName, provisioning))]
      ensures mw == BegunMachine(old(View()), name, owned, cluster, hcName, provisioning)
      ensures schedule == [] ==> pools == old(pools)
    {
      hide RunTo, Own, Reachable, BegunMachine, Spared, MachineCan, MachineNext;
      ghost var s := View();
      BeginMachine(name, owned, cluster, hcName, provisioning);
      Begins(s, name, owned, cluster, hcName, provisioning);
      NoteMachine(s, MBegin(name, owned, cluster, hcName, provisioning));
      s := View();
      Others(HyperMachines, schedule);
      SameWorker(HyperMachines, s, View());
    }

    /** The rest of a reconcile that looks for a pool. */
    method ReconcileNormal(setup: Setup, host: SSH.RemoteHost, others: nat -> seq<Event>)
      returns (adopted: Option<string>, ghost marked: bool, ok: bool, outcome: Option<P.Outcome>, hipNum: string,
               ghost before: map<string, string>, ghost sofar: seq<Event>)
      requires Traced() && mw.MList1?
      modifies this, host
      ensures Traced() && Reachable(View()) && old(run) <= run && mw.MIdle?
      ensures adopted.Some? ==> HoldsPool(old(mw.name), adopted.value, setup, ok, outcome)
      ensures adopted.None? ==> !ok && outcome.None?
      ensures outcome.None? ==> host.files == old(host.files) && host.ran == old(host.ran)
      ensures outcome.Some? ==>
        && setup.secret.Some? && adopted.Some? && adopted.value in pools
        && Performed(outcome.value, setup, pools[adopted.value].status, old(mw.hc.host), hipNum, before, host.node,
                     host.files)
      ensures var asks := outcome.Some? && CC.Parse(Lines(setup.secret.value), 0).Parsed? && setup.connects &&
                          setup.draft.isMaster;
        && Own(run, HyperMachines) ==
             old(Own(run, HyperMachines)) + SearchSteps(adopted, marked) +
             (if adopted.Some? then ProvisionSteps(asks, ok) else []) + [Machine(MEnd)]
        && (asks && IPPoolName in old(mw.hc.labels) ==>
              Bumped(old(run), run, sofar, old(mw.hc.labels)[IPPoolName], hipNum))
      ensures marked ==> adopted.Some?
      ensures (forall k :: others(k) == []) ==>
        && Selected(if marked then adopted else None, old(pools),
                    map[PoolValid := "true", ControlPlane := "", ClusterName := ""])
        && (!marked ==> Selected(adopted, old(pools), map[PoolValid := "true", ClusterName := ""]))
    {
      hide RunTo, Own, Reachable, Counted, R.ValidKept, CC.Parse, Lines, Performed, Selected, SearchSteps;
      ghost var s := View();
      RunReaches(run, s);
      Unready(s);
      adopted, marked := GetHyperMachinePool(others);
      ok, outcome, hipNum, before := false, None, "", host.files;
      sofar := run;
      if adopted.Some? {
        s := View();
        StillListed(s);
        RunGiven(run, s);
        ok, outcome, hipNum, before := ProvisionNode(setup, host, others);
        ListedKept(s, View());
      }
      EndReconcile();
    }

    /** The machine references the pool and is ready just if its provisioning succeeded. */
    ghost predicate HoldsPool(name: string, pool: string, setup: Setup, ok: bool, outcome: Option<P.Outcome>)
      reads this
    {
      && name in machines && machines[name].poolRef == Some(pool) && machines[name].ready == ok && pool in pools
      && var status := pools[pool].status;
      && (ok ==> machines[name].providerID == "hyper:///" + status.hostName)
      && (outcome.Some? <==> setup.secret.Some? && status.os in {"ubuntu", "centos"})
      && (ok <==>
            && setup.secret.Some?
            && (outcome.None? || outcome == Some(P.Done) || (outcome == Some(P.Unknown) && setup.guess)))
    }

    /** The rest of a reconcile that cleans a pool, or has nothing to do but its patch. */
    method ReconcileDelete(connects: bool, schedule: seq<Event>) returns (ghost mine: seq<Event>)
      requires Traced() && (mw.MClean? || mw.MClose?)
      modifies this
      ensures Traced() && Reachable(View()) && old(run) <= run && mw.MIdle?
      ensures Own(run, HyperMachines) == old(Own(run, HyperMachines)) + mine
      ensures Machine(MAdoptPatch) !in mine && Machine(MAskPriority) !in mine
      ensures old(mw).MClose? && !old(mw).mem.finalizer ==> old(mw).name !in machines
      ensures old(mw).MClean? && old(mw).snap.poolRef.Some? ==>
        && var p := old(mw).snap.poolRef.value;
        && old(mw).name !in machines && p in pools
        && (Matches(pools[p].labels, map[PoolValid := "true", ClusterName := ""]) <==> connects)
    {
      hide RunTo, Own, Reachable, Matches;
      mine := [];
      if mw.MClean? {
        CleanNode(connects, schedule);
        mine := [Machine(if connects then MRelease else MUnreachable)];
      }
      EndReconcile();
      mine := mine + [Machine(MEnd)];
    }

    /** One reconcile of a machine, others coming between its steps. `mine` are the steps of its
        own. If it adopted a pool, the machine was due for it, references that pool on its return
        and is ready just if its provisioning succeeded; a priority is asked for, once, if the
        machine is a control-plane node with a known operating system, a secret that parses and a
        node within reach, and otherwise not at all. With nobody coming in between, a machine
        that is due adopts a pool exactly if one is free, one with the control-plane label if
        there is one. A deleted machine is gone on its return; its pool is free again just if
        the node could be reached. */
    method ReconcileMachine(name: string, owned: bool, cluster: string, hcName: string, provisioning: bool,
                            setup: Setup, host: SSH.RemoteHost, others: nat -> seq<Event>)
      returns (adopted: Option<string>, ghost marked: bool, ok: bool, outcome: Option<P.Outcome>, hipNum: string,
               ghost before: map<string, string>, ghost mine: seq<Event>, ghost sofar: seq<Event>)
      requires Traced() && mw.MIdle? && cluster != ""
      modifies this, host
      ensures Traced() && Reachable(View()) && old(run) <= run && mw.MIdle?
      ensures Own(run, HyperMachines) == old(Own(run, HyperMachines)) + mine
      ensures adopted.Some? ==>
        && owned && provisioning && name in old(machines) && hcName in old(clusters)
        && var hm := old(machines)[name];
        && hm.finalizer && !hm.deleting && !hm.ready && hm.providerID == ""
        && HoldsPool(name, adopted.value, setup, ok, outcome)
      ensures adopted.None? ==>
        !ok && outcome.None? && Machine(MAdoptPatch) !in mine && Machine(MAskPriority) !in mine
      ensures outcome.None? ==> host.files == old(host.files) && host.ran == old(host.ran)
      ensures outcome.Some? ==>
        && setup.secret.Some? && adopted.Some? && hcName in old(clusters)
        && Performed(outcome.value, setup, pools[adopted.value].status, old(clusters)[hcName].host, hipNum, before,
                     host.node, host.files)
      ensures var asks := outcome.Some? && CC.Parse(Lines(setup.secret.value), 0).Parsed? && setup.connects &&
                          setup.draft.isMaster;
        && (adopted.Some? ==>
              mine == [Machine(MBegin(name, owned, cluster, hcName, provisioning))] + SearchSteps(adopted, marked) +
                      ProvisionSteps(asks, ok) + [Machine(MEnd)])
        && (asks && IPPoolName in old(clusters)[hcName].labels ==>
              Bumped(old(run), run, sofar, old(clusters)[hcName].labels[IPPoolName], hipNum))
      ensures (forall k :: others(k) == []) && owned && provisioning && old(name in machines && hcName in clusters) ==>
        var hm := old(machines)[name];
        hm.finalizer && !hm.deleting && !hm.ready && hm.providerID == "" ==>
          && Selected(if marked then adopted else None, old(pools),
                      map[PoolValid := "true", ControlPlane := "", ClusterName := ""])
          && (!marked ==> Selected(adopted, old(pools), map[PoolValid := "true", ClusterName := ""]))
      ensures old(name in machines && machines[name].deleting) ==>
        && name !in machines
        && (old(machines)[name].poolRef.Some? ==>
              && var p := old(machines)[name].poolRef.value;
              && p in pools
              && (Matches(pools[p].labels, map[PoolValid := "true", ClusterName := ""]) <==> setup.connects))
    {
      hide RunTo, Own, Reachable, BegunMachine, CC.Parse, Lines, Performed, Selected, SearchSteps, ProvisionSteps,
           Matches;
      ghost var s := View();
      RunReaches(run, s);
      Begun(s, name, owned, cluster, hcName, provisioning);
      Start(name, owned, cluster, hcName, provisioning, others(6));
      mine := [Machine(MBegin(name, owned, cluster, hcName, provisioning))];
      adopted, marked, ok, outcome, hipNum, before, sofar := None, false, false, None, "", host.files, run;
      if mw.MList1? {
        adopted, marked, ok, outcome, hipNum, before, sofar := ReconcileNormal(setup, host, others);
        ghost var asks := outcome.Some? && CC.Parse(Lines(setup.secret.value), 0).Parsed? && setup.connects &&
                          setup.draft.isMaster;
        ghost var passed := if adopted.Some? then ProvisionSteps(asks, ok) else [];
        mine := mine + SearchSteps(adopted, marked) + passed + [Machine(MEnd)];
        NothingAsked(mine[0], marked);
      } else if mw.MClean? || mw.MClose? {
        ghost var rest := ReconcileDelete(setup.connects, others(5));
        mine := mine + rest;
      }
    }

    method FindIP(schedule: seq<Event>) returns (item: Option<string>)
      requires Traced() && cw.CListIP?
      modifies this
      ensures Traced() && Reachable(View()) && old(run) <= run
      ensures Own(run, HyperClusters) == old(Own(run, HyperClusters)) + [Cluster(CPickIP(item))]
      ensures SelectedIP(item, old(ips), map[IPPool := ""])
      ensures cw == if item.Some? then old(CClaimIP(cw.name, cw.snap, item.value, ips[item.value]))
                    else old(CListPool(cw.name, cw.snap, cw.snap))
      ensures L.SameVIPs(old(View()), View()) && SameAddresses(old(View()), View())
      ensures schedule == [] ==> pools == old(pools) && ips == old(ips)
    {
      hide RunTo, Own, Reachable, FreeIPs, Picks, PickIP, ClusterCan, ClusterNext, SelectedIP, Spared, L.SameVIPs,
           SameAddresses;
      ghost var s := View();
      item := ListIPs();
      IPListed(s, item);
      NoteCluster(s, CPickIP(item));
      Others(HyperClusters, schedule);
      ClusterSpared(s, PickIP(s, item), View());
    }

    method Claim(schedule: seq<Event>)
      requires Traced() && cw.CClaimIP?
      modifies this
      ensures Traced() && Reachable(View()) && old(run) <= run
      ensures Own(run, HyperClusters) == old(Own(run, HyperClusters)) + [Cluster(CClaim)]
      ensures old(cw.ip) in old(ips) && old(ips)[old(cw.ip)].ip == old(cw.hip.ip)
      ensures cw == old(
        var hc := cw.snap.(labels := cw.snap.labels[IPPoolName := cw.ip]);
        if cw.hip.ip != "" then CClose(cw.name, cw.snap, hc.(host := cw.hip.ip, port := 6443, ready := true))
        else CListPool(cw.name, cw.snap, hc))
      ensures L.SameVIPs(old(View()), View()) && SameAddresses(old(View()), View())
      ensures schedule == [] ==> pools == old(pools)
    {
      hide RunTo, Own, Reachable, ClaimIP, ClusterCan, ClusterNext, Spared, L.SameVIPs, SameAddresses;
      ghost var s := View();
      RunReaches(run, s);
      Ready(s);
      ClaimHip();
      IPClaimed(s);
      NoteCluster(s, CClaim);
      Others(HyperClusters, schedule);
      ClusterSpared(s, ClaimIP(s), View());
    }

    method FindPool(schedule: seq<Event>) returns (item: Option<string>)
      requires Traced() && cw.CListPool?
      modifies this
      ensures Traced() && Reachable(View()) && old(run) <= run
      ensures Own(run, HyperClusters) == old(Own(run, HyperClusters)) + [Cluster(CPickPool(item))]
      ensures Selected(item, old(pools), map[PoolValid := "true"])
      ensures cw == if item.Some? then old(CMarkPool(cw.name, cw.snap, cw.mem, item.value, pools[item.value]))
                    else old(CClose(cw.name, cw.snap, cw.mem))
      ensures L.SameVIPs(old(View()), View()) && SameAddresses(old(View()), View())
    {
      hide RunTo, Own, Reachable, ValidPools, Picks, PickPool, ClusterCan, ClusterNext, Selected, Spared, L.SameVIPs,
           SameAddresses;
      ghost var s := View();
      item := ListValidPools();
      PoolListed(s, item);
      NoteCluster(s, CPickPool(item));
      Others(HyperClusters, schedule);
      ClusterSpared(s, PickPool(s, item), View());
    }

    method Mark(schedule: seq<Event>) returns (ghost host: string)
      requires Traced() && cw.CMarkPool?
      modifies this
      ensures Traced() && Reachable(View()) && old(run) <= run
      ensures Own(run, HyperClusters) == old(Own(run, HyperClusters)) + [Cluster(CMark)]
      ensures old(cw.pool) in old(pools) && IsHost(host, old(pools)[old(cw.pool)].address)
      ensures cw == old(CClose(cw.name, cw.snap,
                               if host == "" then cw.mem else cw.mem.(host := host, port := 6443, ready := true)))
      ensures L.SameVIPs(old(View()), View()) && SameAddresses(old(View()), View())
    {
      hide RunTo, Own, Reachable, MarkPool, ClusterCan, ClusterNext, Spared, L.SameVIPs, SameAddresses, IsHost,
           HostPart;
      ghost var s := View();
      RunReaches(run, s);
      Ready(s);
      host := HostPart(s.cw.hmp.address);
      MarkHmp();
      PoolMarked(s);
      NoteCluster(s, CMark);
      Others(HyperClusters, schedule);
      ClusterSpared(s, MarkPool(s), View());
    }

    /** `getAPIEndpointfromHmp`. */
    method EndpointFromPool(others: nat -> seq<Event>) returns (ghost marked: Option<string>)
      requires Traced() && cw.CListPool?
      modifies this
      ensures Traced() && Reachable(View()) && old(run) <= run
      ensures cw.CClose? && cw.name == old(cw.name) && cw.snap == old(cw.snap)
      ensures Own(run, HyperClusters) ==
              old(Own(run, HyperClusters)) + [Cluster(CPickPool(marked))] +
              if marked.Some? then [Cluster(CMark)] else []
      ensures Selected(marked, old(pools), map[PoolValid := "true"])
      ensures if marked.None? then cw.mem == old(cw.mem)
              else
                && marked.value in pools
                && (old(cw.mem.host) == "" ==> IsHost(cw.mem.host, pools[marked.value].address))
      ensures L.SameVIPs(old(View()), View())
    {
      hide RunTo, Own, Reachable, Selected, L.SameVIPs, SameAddresses, IsHost;
      ghost var s := View();
      marked := FindPool(others(2));
      if cw.CMarkPool? {
        ghost var s1 := View();
        ghost var host := Mark(others(3));
        PoolThere(s1, View(), marked.value, host);
        VIPsOn(s, s1, View());
      }
    }

    /** `getAPIEndpoint`, the result noted in memory: the address of an IP pool; without a free IP
        or with one that has no address, the host of a valid machine pool; without one, nothing.
        The first list is that of the beginning; with nobody coming in between, so is the second. */
    method GetAPIEndpoint(others: nat -> seq<Event>)
      returns (apiEndpoint: string, ghost claimed: Option<string>, ghost marked: Option<string>)
      requires Traced() && cw.CListIP?
      modifies this
      ensures Traced() && Reachable(View()) && old(run) <= run
      ensures cw.CClose? && cw.name == old(cw.name) && cw.snap == old(cw.snap) && cw.mem.host == apiEndpoint
      ensures claimed.Some? ==> claimed.value in ips
      ensures marked.Some? ==> marked.value in pools
      ensures var onIP := claimed.Some? && ips[claimed.value].ip != "";
        && Own(run, HyperClusters) ==
             old(Own(run, HyperClusters)) + [Cluster(CPickIP(claimed))] +
             (if claimed.Some? then [Cluster(CClaim)] else []) +
             (if onIP then [] else [Cluster(CPickPool(marked))]) + (if marked.Some? then [Cluster(CMark)] else [])
        && (if onIP then marked.None? && apiEndpoint == ips[claimed.value].ip
            else if marked.None? then apiEndpoint == ""
            else
              var address := pools[marked.value].address;
              ':' !in apiEndpoint && (apiEndpoint == address || apiEndpoint + ":" <= address))
      ensures SelectedIP(claimed, old(ips), map[IPPool := ""])
      ensures (forall k :: others(k) == []) && !(claimed.Some? && ips[claimed.value].ip != "") ==>
        Selected(marked, old(pools), map[PoolValid := "true"])
    {
      hide RunTo, Own, Reachable, SelectedIP, Selected, L.SameVIPs, SameAddresses, Matches;
      ghost var s := View();
      RunReaches(run, s);
      NoHostYet(s);
      marked := None;
      claimed := FindIP(others(0));
      ghost var s1 := View();
      if cw.CClaimIP? {
        Claim(others(1));
        VIPThere(s1, View(), claimed.value);
      }
      s1 := View();
      if cw.CListPool? {
        marked := EndpointFromPool(others);
        if claimed.Some? { VIPThere(s1, View(), claimed.value); }
      }
      apiEndpoint := cw.mem.host;
    }

    method StartCluster(name: string, owned: bool, schedule: seq<Event>)
      requires Traced() && cw.CIdle?
      modifies this
      ensures Traced() && Reachable(View()) && old(run) <= run
      ensures Own(run, HyperClusters) == old(Own(run, HyperClusters)) + [Cluster(CBegin(name, owned))]
      ensures cw == BegunCluster(old(View()), name, owned)
      ensures schedule == [] ==> pools == old(pools) && ips == old(ips)
    {
      hide RunTo, Own, Reachable, BegunCluster, Spared, ClusterCan, ClusterNext;
      ghost var s := View();
      BeginCluster(name, owned);
      ClusterBegins(s, name, owned);
      NoteCluster(s, CBegin(name, owned));
      s := View();
      Others(HyperClusters, schedule);
      SameWorker(HyperClusters, s, View());
    }

    /** `deleteHip`. */
    method ReleaseClaim(schedule: seq<Event>)
      requires Traced() && cw.CFree?
      modifies this
      ensures Traced() && Reachable(View()) && old(run) <= run
      ensures Own(run, HyperClusters) == old(Own(run, HyperClusters)) + [Cluster(CRelease)]
      ensures cw == old(CReleased(cw.name, cw.snap))
    {
      hide RunTo, Own, Reachable, ReleaseIP, Spared, ClusterCan, ClusterNext;
      ghost var s := View();
      RunReaches(run, s);
      Ready(s);
      DeleteHip();
      IPReleased(s);
      NoteCluster(s, CRelease);
      Others(HyperClusters, schedule);
      SameWorker(HyperClusters, ReleaseIP(s), View());
    }

    /** The last patch of a reconcile. */
    method EndClusterReconcile()
      requires Traced() && (cw.CClose? || cw.CReleased?)
      modifies this
      ensures Traced() && Reachable(View()) && run == old(run) + [Cluster(CEnd)] && cw.CIdle?
      ensures pools == old(pools) && ips == old(ips)
      ensures Own(run, HyperClusters) == old(Own(run, HyperClusters)) + [Cluster(CEnd)]
      ensures old(cw).CClose? && old(cw).snap.finalizer && !old(cw).snap.deleting && old(cw).mem.host != "" ==>
        && old(cw).name in clusters && clusters[old(cw).name].host == old(cw).mem.host
        && clusters[old(cw).name].port == 6443 && clusters[old(cw).name].ready
      ensures old(cw).CClose? && !old(cw).mem.finalizer ==> old(cw).name !in clusters
      ensures old(cw).CReleased? && IPPoolName in old(cw).snap.labels ==>
        && var i := old(cw).snap.labels[IPPoolName];
        && old(cw).name !in clusters && i in ips && Matches(ips[i].labels, map[IPPool := ""])
    {
      hide RunTo, Own, Reachable, EndCluster, ClusterCan, ClusterNext, Matches;
      ghost var s := View();
      RunReaches(run, s);
      G.ClusterEnds(s);
      CloseClusterScope();
      NoteCluster(s, CEnd);
    }

    /** One reconcile of a cluster, others coming between its steps. A cluster that is to get an
        endpoint and finds one has it on its return and is ready: the address of an IP pool, or
        else the host of a valid machine pool. With nobody coming in between, it claims an IP
        pool exactly if one is free, and without an address from there takes a machine pool
        exactly if one is valid. A deleted cluster is gone on its return, and the IP it held is
        free again. */
    method ReconcileCluster(name: string, owned: bool, others: nat -> seq<Event>)
      returns (apiEndpoint: string, ghost claimed: Option<string>, ghost marked: Option<string>)
      requires Traced() && cw.CIdle?
      modifies this
      ensures Traced() && Reachable(View()) && old(run) <= run && cw.CIdle?
      ensures var begin := [Cluster(CBegin(name, owned))];
        if owned && name in old(clusters) && old(clusters)[name].finalizer && !old(clusters)[name].deleting
           && old(clusters)[name].host == "" && !old(clusters)[name].ready then
          && (claimed.Some? ==> claimed.value in ips) && (marked.Some? ==> marked.value in pools)
          && var onIP := claimed.Some? && ips[claimed.value].ip != "";
          && Own(run, HyperClusters) ==
               old(Own(run, HyperClusters)) + begin + [Cluster(CPickIP(claimed))] +
               (if claimed.Some? then [Cluster(CClaim)] else []) +
               (if onIP then [] else [Cluster(CPickPool(marked))]) + (if marked.Some? then [Cluster(CMark)] else []) +
               [Cluster(CEnd)]
          && (if onIP then marked.None? && apiEndpoint == ips[claimed.value].ip
              else if marked.None? then apiEndpoint == ""
              else
                var address := pools[marked.value].address;
                ':' !in apiEndpoint && (apiEndpoint == address || apiEndpoint + ":" <= address))
          && ((forall k :: others(k) == []) ==>
                && SelectedIP(claimed, old(ips), map[IPPool := ""])
                && (!onIP ==> Selected(marked, old(pools), map[PoolValid := "true"])))
        else apiEndpoint == "" && claimed.None? && marked.None?
      ensures apiEndpoint != "" ==>
        && name in clusters && clusters[name].host == apiEndpoint && clusters[name].port == 6443 && clusters[name].ready
      ensures old(owned && name in clusters && clusters[name].deleting) ==>
        && name !in clusters
        && (IPPoolName in old(clusters)[name].labels ==>
              && var i := old(clusters)[name].labels[IPPoolName];
              && i in ips && Matches(ips[i].labels, map[IPPool := ""]))
    {
      hide RunTo, Own, Reachable, BegunCluster, SelectedIP, Selected, Matches;
      apiEndpoint, claimed, marked := "", None, None;
      ghost var s := View();
      RunReaches(run, s);
      ClusterBegun(s, name, owned);
      StartCluster(name, owned, others(4));
      if cw.CListIP? {
        s := View();
        NoHostYet(s);
        apiEndpoint, claimed, marked := GetAPIEndpoint(others);
        EndClusterReconcile();
      } else if cw.CFree? {
        ReleaseClaim(others(5));
        EndClusterReconcile();
      } else if cw.CClose? {
        EndClusterReconcile();
      }
    }

    /** One reconcile of a machine pool, others coming between its steps. A pool whose valid label
        reads as true is left alone. Any other takes over what was found on its node and becomes
        valid, or the error, and becomes invalid; one without the label is freed. */
    method ReconcilePool(name: string, ssh: SshResult, schedule: seq<Event>)
      requires Traced() && pw.PIdle?
      modifies this
      ensures Traced() && Reachable(View()) && old(run) <= run && pw.PIdle?
      ensures old(name in pools) ==>
        && Own(run, HyperMachinePools) == old(Own(run, HyperMachinePools)) + [Pool(PBegin(name)), Pool(PPatch(ssh))]
        && name in pools && PoolValid in pools[name].labels
        && var before, after := old(pools)[name], pools[name];
        && (if PoolValid in before.labels && before.labels[PoolValid] in {"1", "t", "T", "true", "TRUE", "True"} then
              after.status == before.status && after.labels[PoolValid] == before.labels[PoolValid]
            else if ssh.Up? then
              && after.labels[PoolValid] == "true" && after.status.error == before.status.error
              && after.status.os == ssh.os && after.status.kernel == ssh.kernel
              && after.status.hostName == ssh.hostName && after.status.nic == ssh.nic
            else
              after.labels[PoolValid] == "false" && after.status == before.status.(error := ssh.error))
        && (PoolValid !in before.labels ==> ClusterName in after.labels && after.labels[ClusterName] == "")
    {
      hide RunTo, Own, Reachable, CheckPool, Spared, PoolCan, PoolNext;
      if name !in pools { RunReaches(run, View()); return; }
      ghost var s := View();
      pw := PCheck(name, pools[name]);
      CheckBegun(s, name);
      NotePool(s, PBegin(name));
      s := View();
      Others(HyperMachinePools, schedule);
      StatusSpared(s, View());
      s := View();
      PoolChecked(s, ssh);
      ClosePool(ssh);
      NotePool(s, PPatch(ssh));
    }

    /** One reconcile of an IP pool, which then has a counter label: the one it has by the time of
        the patch, or the free marker. */
    method ReconcileIP(name: string, schedule: seq<Event>)
      requires Traced() && iw.IIdle?
      modifies this
      ensures Traced() && Reachable(View()) && old(run) <= run && iw.IIdle?
      ensures old(name in ips) ==>
        && Own(run, HyperIPPools) == old(Own(run, HyperIPPools)) + [IP(IBegin(name)), IP(IPatch)]
        && name in ips && IPPool in ips[name].labels
        && (schedule == [] ==>
              ips[name].labels[IPPool] ==
                if IPPool in old(ips)[name].labels then old(ips)[name].labels[IPPool] else "")
    {
      hide RunTo, Own, Reachable, InitIP, Spared, IPCan, IPNext;
      if name !in ips { RunReaches(run, View()); return; }
      ghost var s := View();
      iw := IInit(name, ips[name]);
      InitBegun(s, name);
      NoteIP(s, IBegin(name));
      s := View();
      Others(HyperIPPools, schedule);
      SameWorker(HyperIPPools, s, View());
      s := View();
      Ready(s);
      G.InitSparesClaims(s);
      InitEnds(s);
      CloseIP();
      NoteIP(s, IPatch);
    }
  }

  /** A pass on a node, of which `before` is what the delivery of the scripts left. */
  predicate Performed(r: P.Outcome, setup: Setup, status: PoolStatus, vip: string, hipNum: string,
                      before: map<string, string>, node: SSH.Node, files: map<string, string>)
    requires setup.secret.Some?
  {
    var p := CC.Parse(Lines(setup.secret.value), 0);
    && (p.Parsed? && setup.connects && setup.draft.isMaster ==>
          P.ScriptSent(before, "/tmp/keepalived.sh", setup.draft.keepalived,
                       map["$1" := status.nic, "$2" := hipNum, "$3" := vip,
                           "$4" := if hipNum == "100" then "MASTER" else "BACKUP"], node))
    && (r == P.NoConnection <==> p.Parsed? && !setup.connects)
    && (r == P.Done <==>
          && p.Parsed? && setup.connects && setup.draft.version != ""
          && P.Deliver(P.Cleaned(before), p.files, status.hostName, node).Some? && setup.failing >= |p.cmds|)
    && (r == P.Done ==> P.Deliver(P.Cleaned(before), p.files, status.hostName, node) == Some(files))
  }

  /** The pass of a node with a priority already asked for. */
  method Perform(host: SSH.RemoteHost, setup: Setup, status: PoolStatus, vip: string, hipNum: string)
    returns (r: P.Outcome, ghost before: map<string, string>)
    requires setup.secret.Some?
    modifies host
    ensures Performed(r, setup, status, vip, hipNum, before, host.node, host.files)
  {
    hide Lines, CC.Parse, P.ScriptSent, P.Deliver, P.Cleaned;
    var job := setup.draft.(hostName := status.hostName, nic := status.nic, vip := vip, priority := hipNum);
    var outcome, left, _ := P.Provision(host, setup.connects, setup.secret.value, job, setup.short, setup.failing);
    r, before := outcome, left;
  }

  /** What a search for a pool does: the list of marked pools, the list of all of them if that
      is empty, and the adopting patch if one is found. */
  function SearchSteps(adopted: Option<string>, marked: bool): seq<Event> {
    if marked then [Machine(MPick1(adopted)), Machine(MAdoptPatch)]
    else if adopted.Some? then [Machine(MPick1(None)), Machine(MPick2(adopted)), Machine(MAdoptPatch)]
    else [Machine(MPick1(None)), Machine(MPick2(None))]
  }

  /** The first item of a list by labels, None standing for an empty list. */
  predicate Selected(item: Option<string>, pools: map<string, HyperMachinePool>, selector: Labels) {
    if item.Some? then item.value in pools && Matches(pools[item.value].labels, selector)
    else forall p :: p in pools ==> !Matches(pools[p].labels, selector)
  }

  predicate SelectedIP(item: Option<string>, ips: map<string, HyperIPPool>, selector: Labels) {
    if item.Some? then item.value in ips && Matches(ips[item.value].labels, selector)
    else forall i :: i in ips ==> !Matches(ips[i].labels, selector)
  }

  lemma MarkedSelected(s: State, item: Option<string>)
    requires Picks(item, FreeMarkedPools(s))
    ensures Selected(item, s.pools, map[PoolValid := "true", ControlPlane := "", ClusterName := ""])
  {
    hide IsFree, IsMarked, Matches;
    assert item.None? ==> forall p :: p in s.pools ==> p !in FreeMarkedPools(s);
    forall p | p in s.pools { PoolSelectors(s.pools[p]); }
  }

  lemma FreeSelected(s: State, item: Option<string>)
    requires Picks(item, FreePools(s))
    ensures Selected(item, s.pools, map[PoolValid := "true", ClusterName := ""])
  {
    hide IsFree, IsMarked, Matches;
    assert item.None? ==> forall p :: p in s.pools ==> p !in FreePools(s);
    forall p | p in s.pools { PoolSelectors(s.pools[p]); }
  }

  lemma ValidSelected(s: State, item: Option<string>)
    requires Picks(item, ValidPools(s))
    ensures Selected(item, s.pools, map[PoolValid := "true"])
  {
    hide Valid, Matches;
    assert item.None? ==> forall p :: p in s.pools ==> p !in ValidPools(s);
    forall p | p in s.pools { PoolSelectors(s.pools[p]); }
  }

  lemma IPSelected(s: State, item: Option<string>)
    requires Picks(item, FreeIPs(s))
    ensures SelectedIP(item, s.ips, map[IPPool := ""])
  {
    assert item.None? ==> forall i :: i in s.ips ==> i !in FreeIPs(s);
  }

  lemma MarkedListed(s: State, item: Option<string>)
    requires s.mw.MList1? && Picks(item, FreeMarkedPools(s))
    ensures MachineCan(s, MPick1(item)) && MachineNext(s, MPick1(item)) == PickMarked(s, item)
    ensures var s' := PickMarked(s, item);
      && s'.pools == s.pools && s'.machines == s.machines
      && if item.Some? then item.value in s.pools &&
             s'.mw == MAdopt(s.mw.name, s.mw.snap, s.mw.cluster, s.mw.hc, item.value, s.pools[item.value])
         else s'.mw == MList2(s.mw.name, s.mw.snap, s.mw.cluster, s.mw.hc)
  {
    hide IsFree, IsMarked;
  }

  lemma FreeListed(s: State, item: Option<string>)
    requires s.mw.MList2? && Picks(item, FreePools(s))
    ensures MachineCan(s, MPick2(item)) && MachineNext(s, MPick2(item)) == PickAny(s, item)
    ensures var s' := PickAny(s, item);
      && s'.pools == s.pools && s'.machines == s.machines
      && if item.Some? then item.value in s.pools &&
             s'.mw == MAdopt(s.mw.name, s.mw.snap, s.mw.cluster, s.mw.hc, item.value, s.pools[item.value])
         else s'.mw == MClose(s.mw.name, s.mw.snap, s.mw.snap)
  {
    hide IsFree;
  }

  lemma OrphanAdopted(s: State)
    requires s.mw.MAdopt? && s.mw.pool in s.pools
    ensures MachineCan(s, MAdoptPatch) && MachineNext(s, MAdoptPatch) == AdoptPatch(s)
    ensures AdoptPatch(s).machines == s.machines
    ensures AdoptPatch(s).mw == MProvision(s.mw.name, s.mw.snap, s.mw.hc, s.mw.pool, s.mw.hmp, false)
  {
    hide PatchPool;
  }

  /** Along the run, the asked priority was 100 less the number of those given out on `i` since
      its claim, and it is the next in the history; the counter has gone up by one. */
  ghost predicate Counted(s: State, asked: seq<Event>, i: string, hipNum: string)
    requires i in s.given
  {
    var n := |s.given[i]|;
    && hipNum == Itoa(Wrap64(100 - n))
    && i in s.ips && At(s.ips[i].labels, IPPool) == Some(Itoa(Wrap64(n)))
    && IsRun(START, asked)
    && var s' := End(START, asked);
    && i in s'.given && s'.given[i] == s.given[i] + [hipNum]
    && i in s'.ips && At(s'.ips[i].labels, IPPool) == Some(Itoa(Wrap64(n + 1)))
  }

  /** Between `begin` and `run`, after the run `sofar`, the controller asked for a priority on `i`;
      if the IP was claimed by then, that counted. */
  ghost predicate Bumped(begin: seq<Event>, run: seq<Event>, sofar: seq<Event>, i: string, hipNum: string) {
    && begin <= sofar && sofar + [Machine(MAskPriority)] <= run && IsRun(START, sofar)
    && var s := End(START, sofar);
    i in s.given ==> Counted(s, sofar + [Machine(MAskPriority)], i, hipNum)
  }

  lemma RunGiven(run: seq<Event>, s: State)
    requires RunTo(run, s)
    ensures IsRun(START, run) && End(START, run) == s
  {
    hide IsRun, End, Uncut;
  }

  lemma AskedCounts(s: State, asked: seq<Event>, i: string, hipNum: string)
    requires Reachable(s) && s.mw.MProvision? && At(s.mw.hc.labels, IPPoolName) == Some(i) && i in s.given
    requires RunTo(asked, AskPriority(s))
    requires i in s.ips && IPPool in s.ips[i].labels && Atoi(s.ips[i].labels[IPPool]).Some? ==>
      hipNum == Itoa(Wrap64(100 - Atoi(s.ips[i].labels[IPPool]).value))
    ensures Counted(s, asked, i, hipNum)
  {
    hide Reachable, A.AccountInv, PS.PoolInv, C.ClustersOk, C.ClusterWorkerOk, Itoa, Atoi, Wrap64, IsRun, Uncut, End;
    ReachableHolds(s);
    var n := |s.given[i]|;
    AtoiItoa(Wrap64(n));
    WrapAgain(n, 100);
    C.NextCounts(s.ips[i], s.given[i]);
    L.GivesNext(s, i);
    CounterGrows(s, i);
  }

  lemma CounterGrows(s: State, i: string)
    requires s.mw.MProvision? && At(s.mw.hc.labels, IPPoolName) == Some(i)
    requires i in s.ips && i in s.given && C.Counts(s.ips[i], s.given[i])
    ensures i in AskPriority(s).ips
    ensures At(AskPriority(s).ips[i].labels, IPPool) == Some(Itoa(Wrap64(|s.given[i]| + 1)))
  {
    hide Itoa, Wrap64, NextPriority;
    C.NextCounts(s.ips[i], s.given[i]);
  }

  lemma Asked(s: State)
    requires s.mw.MProvision? && !s.mw.asked && KnownOS(s.mw.hmp)
    ensures MachineCan(s, MAskPriority) && MachineNext(s, MAskPriority) == AskPriority(s)
    ensures AskPriority(s).mw == s.mw.(asked := true) && AskPriority(s).pools == s.pools
  {
    hide NextPriority, KnownOS;
  }

  /** No step of the machine controller but asking for a priority touches an IP pool. */
  lemma SparesIPs(s: State, e: MachineEvent)
    requires MachineCan(s, e) && e != MAskPriority
    ensures MachineNext(s, e).ips == s.ips && MachineNext(s, e).given == s.given
  {
    hide BegunMachine, AskPriority, EndMachine, InFlight, Picks, KnownOS, PatchPool;
  }

  lemma Systems(hmp: HyperMachinePool)
    ensures KnownOS(hmp) <==> hmp.status.os in {"ubuntu", "centos"}
  {
  }

  lemma KeptNow(s: State)
    ensures R.ValidKept(s, s)
  {
  }

  lemma KeptOn(s: State, s1: State, s2: State)
    requires s1.pools == s.pools && Spared(HyperMachines, s1, s2)
    ensures R.ValidKept(s, s2)
  {
    hide Valid;
  }

  lemma KeptOn2(s0: State, s1: State, s2: State)
    requires R.ValidKept(s0, s1) && R.ValidKept(s1, s2)
    ensures R.ValidKept(s0, s2)
  {
    hide Valid;
  }

  lemma Finished(s: State, ok: bool)
    requires s.mw.MProvision?
    ensures MachineCan(s, MFinish(ok)) && MachineNext(s, MFinish(ok)) == FinishProvision(s, ok)
    ensures var mw := FinishProvision(s, ok).mw;
      && mw.MClose? && mw.name == s.mw.name && mw.snap == s.mw.snap
      && mw.mem.poolRef == Some(s.mw.pool) && mw.mem.ready == (ok || s.mw.snap.ready)
      && (ok ==> mw.mem.providerID == "hyper:///" + s.mw.hmp.status.hostName)
  {
    hide HostPart;
  }

  lemma Cleaned(s: State)
    requires s.mw.MClean? && s.mw.pool in s.pools
    ensures MachineCan(s, MRelease) && MachineNext(s, MRelease) == ReleasePool(s)
    ensures ReleasePool(s).mw == MReleased(s.mw.name, s.mw.snap)
    ensures MachineCan(s, MUnreachable) && MachineNext(s, MUnreachable) == s.(mw := MAbandon(s.mw.name, s.mw.snap))
  {
    hide PatchPool;
  }

  lemma Unready(s: State)
    requires Reachable(s) && s.mw.MList1?
    ensures !s.mw.snap.ready
  {
    hide Reachable, A.AccountInv, C.ClusterInv, PS.MachinesOk;
    ReachableHolds(s);
  }

  /** What the last step of a machine's reconcile leaves. */
  lemma Ends(s: State)
    requires Reachable(s) && (s.mw.MClose? || s.mw.MAbandon? || s.mw.MReleased?)
    ensures MachineCan(s, MEnd) && MachineNext(s, MEnd) == EndMachine(s)
    ensures s.mw.MClose? && s.mw.mem.poolRef.Some? ==>
      var ms := EndMachine(s).machines;
      s.mw.name in ms && ms[s.mw.name] == s.mw.mem.(deleting := ms[s.mw.name].deleting)
    ensures s.mw.MClose? && !s.mw.mem.finalizer ==> s.mw.name !in EndMachine(s).machines
    ensures !s.mw.MClose? && s.mw.snap.poolRef.Some? ==>
      var p := s.mw.snap.poolRef.value;
      && s.mw.name !in EndMachine(s).machines && p in s.pools
      && (Matches(s.pools[p].labels, map[PoolValid := "true", ClusterName := ""]) <==> s.mw.MReleased?)
  {
    hide Reachable, A.AccountInv, C.ClusterInv, PS.MachinesOk, EndMachine;
    ReachableHolds(s);
    if s.mw.MClose? {
      PS.EndWrites(s);
      if s.mw.mem.poolRef.Some? { Remains(s); }
    } else {
      PS.EndRemoves(s);
      A.DeletedTaken(s);
      Freed(s);
    }
  }

  lemma Remains(s: State)
    requires PS.MachineWorkerOk(s) && s.mw.MClose? && s.mw.mem.poolRef.Some?
    ensures s.mw.name in EndMachine(s).machines
  {
    hide PS.Held, PS.Agrees, PS.Unreferenced;
  }

  lemma Freed(s: State)
    requires PS.PoolInv(s) && (s.mw.MAbandon? || s.mw.MReleased?)
    requires s.mw.name in s.machines && s.machines[s.mw.name].poolRef == s.mw.snap.poolRef
    requires s.mw.snap.poolRef.Some? && s.mw.snap.poolRef.value in s.pools
    requires Taken(s.pools[s.mw.snap.poolRef.value]) == s.mw.MAbandon?
    ensures Matches(s.pools[s.mw.snap.poolRef.value].labels, map[PoolValid := "true", ClusterName := ""])
            <==> s.mw.MReleased?
  {
    PoolSelectors(s.pools[s.mw.snap.poolRef.value]);
    PS.MachineAt(s, s.mw.name);
  }

  /** The pool is as it was listed in what the provisioning makes use of. */
  lemma StillListed(s: State)
    requires Reachable(s) && s.mw.MProvision?
    ensures s.mw.pool in s.pools && Valid(s.pools[s.mw.pool].labels) && s.pools[s.mw.pool].status == s.mw.hmp.status
  {
    hide Reachable, A.AccountInv, C.ClusterInv, PS.MachinesOk, PS.Exclusive;
    ReachableHolds(s);
  }

  lemma ListedKept(s: State, s': State)
    requires s.mw.MProvision? && s.mw.pool in s.pools && Valid(s.pools[s.mw.pool].labels)
    requires R.ValidKept(s, s')
    ensures s.mw.pool in s'.pools && s'.pools[s.mw.pool].status == s.pools[s.mw.pool].status
  {
  }

  /** What provisioning does: asking for a priority, which only a control-plane node does, and
      only if it gets that far, and writing down the outcome. */
  function ProvisionSteps(asks: bool, ok: bool): seq<Event> {
    (if asks then [Machine(MAskPriority)] else []) + [Machine(MFinish(ok))]
  }

  lemma Begins(s: State, name: string, owned: bool, cluster: string, hcName: string, provisioning: bool)
    requires s.mw.MIdle? && cluster != ""
    ensures var e := MBegin(name, owned, cluster, hcName, provisioning);
      MachineCan(s, e) && MachineNext(s, e) == s.(mw := BegunMachine(s, name, owned, cluster, hcName, provisioning))
  {
    hide BegunMachine;
  }

  lemma ClusterBegins(s: State, name: string, owned: bool)
    requires s.cw.CIdle?
    ensures ClusterCan(s, CBegin(name, owned))
    ensures ClusterNext(s, CBegin(name, owned)) == s.(cw := BegunCluster(s, name, owned))
  {
    hide BegunCluster;
  }

  lemma Begun(s: State, name: string, owned: bool, cluster: string, hcName: string, provisioning: bool)
    requires Reachable(s) && s.mw.MIdle? && cluster != ""
    ensures var mw := BegunMachine(s, name, owned, cluster, hcName, provisioning);
      && (mw.MIdle? || ((mw.MClose? || mw.MClean? || mw.MList1?) && mw.name == name))
      && (mw.MList1? <==>
            && owned && provisioning && name in s.machines && hcName in s.clusters
            && var hm := s.machines[name]; hm.finalizer && !hm.deleting && !hm.ready && hm.providerID == "")
      && (mw.MList1? ==> mw.hc == s.clusters[hcName])
      && (name in s.machines && s.machines[name].deleting ==>
            if s.machines[name].poolRef.Some? then mw.MClean? && mw.snap == s.machines[name]
            else mw.MClose? && !mw.mem.finalizer)
  {
    hide Reachable, A.AccountInv, C.ClusterInv, PS.MachineWorkerOk;
    ReachableHolds(s);
    if name in s.machines { PS.MachineAt(s, name); }
  }

  lemma NothingAsked(begin: Event, marked: bool)
    ensures !marked && begin.Machine? && begin.m.MBegin? ==>
      var mine := [begin] + SearchSteps(None, marked) + [] + [Machine(MEnd)];
      Machine(MAdoptPatch) !in mine && Machine(MAskPriority) !in mine
  {
  }

  /** The part of an address before the port. */
  predicate IsHost(host: string, address: string) {
    ':' !in host && (host == address || host + ":" <= address)
  }

  lemma ClusterSpared(s: State, s1: State, s2: State)
    requires L.SameVIPs(s, s1) && SameAddresses(s, s1) && Spared(HyperClusters, s1, s2)
    ensures s2.cw == s1.cw && L.SameVIPs(s, s2) && SameAddresses(s, s2)
  {
  }

  lemma IPListed(s: State, item: Option<string>)
    requires s.cw.CListIP? && Picks(item, FreeIPs(s))
    ensures ClusterCan(s, CPickIP(item)) && ClusterNext(s, CPickIP(item)) == PickIP(s, item)
    ensures var s' := PickIP(s, item);
      && s' == s.(cw := s'.cw) && L.SameVIPs(s, s') && SameAddresses(s, s')
      && if item.Some? then
           item.value in s.ips && s'.cw == CClaimIP(s.cw.name, s.cw.snap, item.value, s.ips[item.value])
         else s'.cw == CListPool(s.cw.name, s.cw.snap, s.cw.snap)
  {
  }

  lemma IPClaimed(s: State)
    requires Reachable(s) && s.cw.CClaimIP? && s.cw.ip in s.ips
    ensures ClusterCan(s, CClaim) && ClusterNext(s, CClaim) == ClaimIP(s)
    ensures s.ips[s.cw.ip].ip == s.cw.hip.ip
    ensures var s' := ClaimIP(s);
      && s'.pools == s.pools && L.SameVIPs(s, s') && SameAddresses(s, s')
      && var hc := s.cw.snap.(labels := s.cw.snap.labels[IPPoolName := s.cw.ip]);
      s'.cw == if s.cw.hip.ip != "" then
                 CClose(s.cw.name, s.cw.snap, hc.(host := s.cw.hip.ip, port := 6443, ready := true))
               else CListPool(s.cw.name, s.cw.snap, hc)
  {
    hide Reachable, A.AccountInv, PS.PoolInv, C.ClustersOk, C.GivenOk, C.ExclusiveIPs, MergeFrom;
    ReachableHolds(s);
  }

  lemma PoolListed(s: State, item: Option<string>)
    requires s.cw.CListPool? && Picks(item, ValidPools(s))
    ensures ClusterCan(s, CPickPool(item)) && ClusterNext(s, CPickPool(item)) == PickPool(s, item)
    ensures var s' := PickPool(s, item);
      && s' == s.(cw := s'.cw) && L.SameVIPs(s, s') && SameAddresses(s, s')
      && if item.Some? then
           item.value in s.pools && s'.cw == CMarkPool(s.cw.name, s.cw.snap, s.cw.mem, item.value, s.pools[item.value])
         else s'.cw == CClose(s.cw.name, s.cw.snap, s.cw.mem)
  {
    hide Valid;
  }

  lemma PoolMarked(s: State)
    requires Reachable(s) && s.cw.CMarkPool? && s.cw.pool in s.pools
    ensures ClusterCan(s, CMark) && ClusterNext(s, CMark) == MarkPool(s)
    ensures var s' := MarkPool(s);
      && L.SameVIPs(s, s') && SameAddresses(s, s')
      && var host := HostPart(s.cw.hmp.address);
      && IsHost(host, s.pools[s.cw.pool].address)
      && s'.cw == CClose(s.cw.name, s.cw.snap,
                         if host == "" then s.cw.mem else s.cw.mem.(host := host, port := 6443, ready := true))
  {
    hide Reachable, MergeFrom, Marked, HostPart, PatchStatus;
    F.Sighted(s);
    HostBeforeColon(s.cw.hmp.address);
  }

  lemma IPReleased(s: State)
    requires s.cw.CFree? && s.cw.ip in s.ips
    ensures ClusterCan(s, CRelease) && ClusterNext(s, CRelease) == ReleaseIP(s)
    ensures ReleaseIP(s).cw == CReleased(s.cw.name, s.cw.snap)
  {
    hide PatchIP;
  }

  lemma NoHostYet(s: State)
    requires Reachable(s) && s.cw.CListIP?
    ensures s.cw.snap.host == "" && s.cw.snap.finalizer && !s.cw.snap.deleting
  {
    hide Reachable, A.AccountInv, PS.PoolInv, C.ClustersOk, C.GivenOk;
    ReachableHolds(s);
  }

  lemma VIPThere(s: State, s': State, i: string)
    requires L.SameVIPs(s, s') && i in s.ips
    ensures i in s'.ips && s'.ips[i].ip == s.ips[i].ip
  {
  }

  lemma VIPsOn(s0: State, s1: State, s2: State)
    requires L.SameVIPs(s0, s1) && L.SameVIPs(s1, s2)
    ensures L.SameVIPs(s0, s2)
  {
  }

  lemma PoolThere(s: State, s': State, p: string, host: string)
    requires SameAddresses(s, s') && p in s.pools && IsHost(host, s.pools[p].address)
    ensures p in s'.pools && IsHost(host, s'.pools[p].address)
  {
  }

  lemma ClusterBegun(s: State, name: string, owned: bool)
    requires Reachable(s) && s.cw.CIdle?
    ensures var cw := BegunCluster(s, name, owned);
      && (cw.CIdle? || ((cw.CClose? || cw.CFree? || cw.CListIP?) && cw.name == name))
      && (cw.CListIP? <==>
            && owned && name in s.clusters
            && var hc := s.clusters[name]; hc.finalizer && !hc.deleting && hc.host == "" && !hc.ready)
      && (owned && name in s.clusters && s.clusters[name].deleting ==>
            if IPPoolName in s.clusters[name].labels then cw.CFree? && cw.snap == s.clusters[name]
            else cw.CClose? && !cw.mem.finalizer)
  {
    hide Reachable, A.AccountInv, PS.PoolInv, C.ClusterWorkerOk, C.GivenOk;
    ReachableHolds(s);
    if name in s.clusters { C.ClusterAt(s, name); }
  }

  lemma CheckBegun(s: State, name: string)
    requires s.pw.PIdle? && name in s.pools
    ensures PoolCan(s, PBegin(name)) && PoolNext(s, PBegin(name)) == s.(pw := PCheck(name, s.pools[name]))
  {
  }

  lemma StatusSpared(s: State, s': State)
    requires Spared(HyperMachinePools, s, s') && s.pw.PCheck? && s.pw.name in s.pools
    ensures s'.pw == s.pw && s.pw.name in s'.pools && s'.pools[s.pw.name].status == s.pools[s.pw.name].status
  {
  }

  lemma PoolChecked(s: State, ssh: SshResult)
    requires Reachable(s) && s.pw.PCheck? && s.pw.name in s.pools && s.pools[s.pw.name].status == s.pw.snap.status
    ensures PoolCan(s, PPatch(ssh)) && PoolNext(s, PPatch(ssh)) == CheckPool(s, ssh)
    ensures s.pw.name in CheckPool(s, ssh).pools && CheckPool(s, ssh).pw.PIdle?
    ensures var before, after := s.pw.snap, CheckPool(s, ssh).pools[s.pw.name];
      && PoolValid in after.labels
      && (if PoolValid in before.labels && before.labels[PoolValid] in {"1", "t", "T", "true", "TRUE", "True"} then
            after.status == before.status && after.labels[PoolValid] == before.labels[PoolValid]
          else if ssh.Up? then
            && after.labels[PoolValid] == "true"
            && after.status.error == before.status.error && after.status.os == ssh.os
            && after.status.kernel == ssh.kernel && after.status.hostName == ssh.hostName && after.status.nic == ssh.nic
          else
            after.labels[PoolValid] == "false" && after.status == before.status.(error := ssh.error))
      && (PoolValid !in before.labels ==> ClusterName in after.labels && after.labels[ClusterName] == "")
  {
    hide Reachable, A.AccountInv, C.ClusterInv, PS.MachinesOk, PS.MachineWorkerOk, PS.Exclusive, CheckedPool,
         PatchPool;
    ReachableHolds(s);
    R.CheckReports(s.pools[s.pw.name], s.pw.snap, ssh);
    Serial.CheckInOneStep(s, ssh);
    assert At(s.pools[s.pw.name].labels, PoolValid) == At(s.pw.snap.labels, PoolValid);
  }

  lemma InitBegun(s: State, name: string)
    requires s.iw.IIdle? && name in s.ips
    ensures IPCan(s, IBegin(name)) && IPNext(s, IBegin(name)) == s.(iw := IInit(name, s.ips[name]))
  {
  }

  lemma InitEnds(s: State)
    requires s.iw.IInit? && s.iw.name in s.ips
    ensures IPCan(s, IPatch) && IPNext(s, IPatch) == InitIP(s) && InitIP(s).iw.IIdle?
  {
    hide PatchIP;
  }

  // ---------------------------------------------------------------- what the others leave

  predicate SameAddresses(s: State, s': State) {
    forall p :: p in s.pools ==> p in s'.pools && s'.pools[p].address == s.pools[p].address
  }

  /** What everyone else leaves a controller: its reconcile, and of the objects what it relies
      on between its steps. */
  predicate Spared(c: Controller, s: State, s': State) {
    match c
    case HyperMachines => s'.mw == s.mw && R.ValidKept(s, s')
    case HyperClusters => s'.cw == s.cw && L.SameVIPs(s, s') && SameAddresses(s, s')
    case HyperMachinePools => s'.pw == s.pw && R.SameStatuses(s, s')
    case HyperIPPools => s'.iw == s.iw
  }

  lemma SameWorker(c: Controller, s: State, s': State)
    requires Spared(c, s, s')
    ensures match c
      case HyperMachines => s'.mw == s.mw
      case HyperClusters => s'.cw == s.cw
      case HyperMachinePools => s'.pw == s.pw
      case HyperIPPools => s'.iw == s.iw
  {
  }

  lemma SparedNow(c: Controller, s: State)
    ensures Spared(c, s, s)
  {
  }

  lemma SparedOn(c: Controller, s0: State, s1: State, s2: State)
    requires Spared(c, s0, s1) && Spared(c, s1, s2)
    ensures Spared(c, s0, s2)
  {
    hide Valid;
  }

  lemma OthersSpare(s: State, e: Event, mine: Controller)
    requires Reachable(s) && Enabled(s, e) && !Of(e, mine)
    ensures Spared(mine, s, Next(s, e))
  {
    hide Reachable, Inv, Next, Enabled, R.ValidKept, L.SameVIPs, R.SameStatuses;
    ReachableHolds(s);
    OthersLeave(s, e, mine);
    match mine
    case HyperMachines => R.StepKeepsValid(s, e);
    case HyperClusters =>
      L.StepKeepsVIPs(s, e);
      forall p | p in s.pools
        ensures p in Next(s, e).pools && Next(s, e).pools[p].address == s.pools[p].address
      {
        F.StepKeepsAddress(s, e, p);
      }
    case HyperMachinePools => R.OthersKeepStatuses(s, e);
    case HyperIPPools =>
  }

  /** Each controller leaves the others' reconciles alone. */
  lemma OthersLeave(s: State, e: Event, mine: Controller)
    requires Enabled(s, e) && !Of(e, mine)
    ensures match mine
      case HyperMachines => Next(s, e).mw == s.mw
      case HyperClusters => Next(s, e).cw == s.cw
      case HyperMachinePools => Next(s, e).pw == s.pw
      case HyperIPPools => Next(s, e).iw == s.iw
  {
    hide UserNext, MachineNext, ClusterNext, PoolNext, IPNext, UserCan, MachineCan, ClusterCan, PoolCan, IPCan;
    match e
    case User(u) => UserLeaves(s, u);
    case Machine(m) => MachineLeaves(s, m);
    case Cluster(c) => ClusterFrame(s, c);
    case Pool(q) => PoolFrame(s, q);
    case IP(i) => IPFrame(s, i);
  }

  lemma UserLeaves(s: State, u: UserEvent)
    requires UserCan(s, u)
    ensures var s' := UserNext(s, u); s'.mw == s.mw && s'.cw == s.cw && s'.pw == s.pw && s'.iw == s.iw
  {
    hide PutMachine, PutCluster, Taken;
  }

  lemma MachineLeaves(s: State, m: MachineEvent)
    requires MachineCan(s, m)
    ensures var s' := MachineNext(s, m); s'.cw == s.cw && s'.pw == s.pw && s'.iw == s.iw
  {
    hide BegunMachine, AskPriority, EndMachine, InFlight, Picks, KnownOS, PatchPool;
  }

  lemma Unmarks(labels: Labels)
    ensures ControlPlane !in labels ==> labels == labels - {ControlPlane}
  {
  }

  lemma CheckedText()
    ensures !ParseBool("false")
  {
  }
}
