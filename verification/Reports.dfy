/** What the provider knows of a node: a pool's status is what the checks of its node reported,
    and a machine that is ready carries the host name that was reported. */
module Reports {
  import opened Strings
  import opened Labels
  import opened Protocol
  import opened Runs
  import L = Lifecycle
  import PS = PoolSafety
  import Serial

  // ------------------------------------------------------- only checks write a status

  predicate SameStatuses(s: State, s': State) {
    forall p :: p in s.pools ==> p in s'.pools && s'.pools[p].status == s.pools[p].status
  }

  lemma UserKeepsStatuses(s: State, u: UserEvent)
    requires UserCan(s, u)
    ensures SameStatuses(s, UserNext(s, u))
  {
    hide PutMachine, PutCluster, Taken;
  }

  lemma MachineKeepsStatuses(s: State, m: MachineEvent)
    requires MachineCan(s, m)
    ensures SameStatuses(s, MachineNext(s, m))
  {
    hide Adopted, Released, MergeFrom, EndMachine, AskPriority, Picks, KnownOS;
    if !m.MRelease? { L.MachinePools(s, m); }
  }

  lemma OthersKeepStatuses(s: State, e: Event)
    requires Enabled(s, e) && !e.Pool?
    ensures SameStatuses(s, Next(s, e))
  {
    hide UserNext, MachineNext, ClusterNext, IPNext, UserCan, MachineCan, IPCan, MergeFrom, Marked, HostPart;
    match e
    case User(u) => UserKeepsStatuses(s, u);
    case Machine(m) => MachineKeepsStatuses(s, m);
    case Cluster(c) =>
      ClusterFrame(s, c);
      if c.CMark? { L.ClusterPools(s, c); }
    case IP(i) => IPFrame(s, i);
  }

  // ----------------------------------------------------------------- one check, one report

  /** The status a check leaves: a pool that counts as valid keeps its own, any other takes over
      what was found on its node, or the error. */
  lemma CheckReports(cur: HyperMachinePool, snap: HyperMachinePool, ssh: SshResult)
    requires cur.status == snap.status
    ensures var status := PatchPool(snap, CheckedPool(snap, ssh), cur).status;
      if PoolValid in snap.labels && snap.labels[PoolValid] in {"1", "t", "T", "true", "TRUE", "True"} then
        status == cur.status
      else if ssh.Up? then
        && status.error == cur.status.error && status.os == ssh.os && status.kernel == ssh.kernel
        && status.hostName == ssh.hostName && status.nic == ssh.nic
      else
        status == cur.status.(error := ssh.error)
  {
    hide MergeFrom, Checked;
  }

  /** What is known of the node of `p` after an event, `known` being what was known before. */
  function Reported(s: State, e: Event, p: string, known: PoolStatus): PoolStatus {
    match e
    case User(u) => if u.NewPool? && u.name == p then u.hmp.status else known
    case Pool(q) =>
      if q.PPatch? && s.pw.PCheck? && s.pw.name == p && !CountsAsValid(s.pw.snap.labels) then
        match q.ssh
        case Down(error) => known.(error := error)
        case Up(os, kernel, hostName, nic) => known.(os := os, kernel := kernel, hostName := hostName, nic := nic)
      else known
    case _ => known
  }

  function Known(s: State, es: seq<Event>, p: string, known: PoolStatus): PoolStatus
    requires IsRun(s, es)
    decreases |es|
  {
    if es == [] then known else Known(Next(s, es[0]), es[1..], p, Reported(s, es[0], p, known))
  }

  // --------------------------------------------------------------------------- over a run

  /** A check under way has read the status that is stored. */
  predicate ReadsStatus(s: State) {
    s.pw.PCheck? ==> s.pw.name in s.pools && s.pools[s.pw.name].status == s.pw.snap.status
  }

  lemma OthersLeaveCheck(s: State, e: Event)
    requires Enabled(s, e) && !e.Pool?
    ensures Next(s, e).pw == s.pw
  {
    hide UserNext, MachineNext, ClusterNext, IPNext, UserCan, MachineCan, ClusterCan, IPCan;
    match e
    case User(u) => UserLeavesCheck(s, u);
    case Machine(m) => MachineLeavesCheck(s, m);
    case Cluster(c) => ClusterFrame(s, c);
    case IP(i) => IPFrame(s, i);
  }

  lemma UserLeavesCheck(s: State, u: UserEvent)
    requires UserCan(s, u)
    ensures UserNext(s, u).pw == s.pw
  {
    hide PutMachine, PutCluster, Taken;
  }

  lemma MachineLeavesCheck(s: State, m: MachineEvent)
    requires MachineCan(s, m)
    ensures MachineNext(s, m).pw == s.pw
  {
    hide BegunMachine, AskPriority, EndMachine, InFlight, Picks, KnownOS, PatchPool;
  }

  lemma StepReadsStatus(s: State, e: Event)
    requires ReadsStatus(s) && Enabled(s, e)
    ensures ReadsStatus(Next(s, e))
  {
    hide Next, Enabled, PatchPool, CheckedPool;
    if e.Pool? {
      PoolStep(s, e.p);
    } else {
      OthersLeaveCheck(s, e);
      OthersKeepStatuses(s, e);
    }
  }

  lemma PoolStep(s: State, q: PoolEvent)
    ensures Enabled(s, Pool(q)) <==> PoolCan(s, q)
    ensures PoolCan(s, q) ==> Next(s, Pool(q)) == PoolNext(s, q)
  {
    hide PoolCan, PoolNext;
  }

  /** What is stored of `p`, if it is there, is what is known. */
  predicate Tells(s: State, p: string, known: PoolStatus) {
    p in s.pools ==> s.pools[p].status == known
  }

  lemma StepTells(s: State, e: Event, p: string, known: PoolStatus)
    requires ReadsStatus(s) && Enabled(s, e) && Tells(s, p, known)
    ensures Tells(Next(s, e), p, Reported(s, e, p, known))
  {
    hide Next, Enabled, UserCan, UserNext, PoolCan, PoolNext, CountsAsValid;
    if e.Pool? {
      PoolStep(s, e.p);
      CheckTells(s, e.p, p, known);
    } else {
      OthersKeepStatuses(s, e);
      NewPools(s, e, p);
    }
  }

  lemma CheckTells(s: State, q: PoolEvent, p: string, known: PoolStatus)
    requires ReadsStatus(s) && PoolCan(s, q) && Tells(s, p, known)
    ensures Tells(PoolNext(s, q), p, Reported(s, Pool(q), p, known))
  {
    hide PatchPool, CheckedPool;
    if q.PPatch? && s.pw.name == p { CheckReports(s.pools[p], s.pw.snap, q.ssh); }
  }

  /** Pools come from users. */
  lemma NewPools(s: State, e: Event, p: string)
    requires Enabled(s, e) && !e.Pool?
    ensures p !in s.pools && p in Next(s, e).pools ==> e.User? && e.u.NewPool? && e.u.name == p
    ensures e.User? && e.u.NewPool? && e.u.name == p ==>
      p !in s.pools && p in Next(s, e).pools && Next(s, e).pools[p] == e.u.hmp
  {
    hide MachineNext, ClusterNext, IPNext, MachineCan, IPCan, PutMachine, PutCluster, Taken, PatchPool;
    match e
    case User(u) =>
    case Machine(m) => MachineAddsNone(s, m);
    case Cluster(c) =>
      ClusterFrame(s, c);
      if c.CMark? { L.ClusterPools(s, c); }
    case IP(i) => IPFrame(s, i);
  }

  lemma MachineAddsNone(s: State, m: MachineEvent)
    requires MachineCan(s, m)
    ensures MachineNext(s, m).pools.Keys == s.pools.Keys
  {
    hide PatchPool, EndMachine, AskPriority, Picks, KnownOS;
    if !m.MRelease? { L.MachinePools(s, m); }
  }

  lemma {:induction false} RunTells(s: State, es: seq<Event>, p: string, known: PoolStatus)
    requires ReadsStatus(s) && IsRun(s, es) && Tells(s, p, known)
    ensures Tells(End(s, es), p, Known(s, es, p, known))
    decreases |es|
  {
    hide Next, Enabled, Reported, Tells, ReadsStatus;
    if es != [] {
      StepTells(s, es[0], p, known);
      StepReadsStatus(s, es[0]);
      RunTells(Next(s, es[0]), es[1..], p, Reported(s, es[0], p, known));
    }
  }

  /** On every run from the empty store, crashes anywhere included, the status of a pool is the
      one it was created with, overwritten by the reports of its checks; `any` stands for what
      is known before the pool is created. */
  lemma StatusReported(es: seq<Event>, p: string, any: PoolStatus)
    requires IsRun(START, es) && p in End(START, es).pools
    ensures End(START, es).pools[p].status == Known(START, es, p, any)
  {
    hide IsRun, End, Known;
    RunTells(START, es, p, any);
  }

  /** A machine that is ready carries as its provider ID the host name its node reported last. */
  lemma ReadyAsReported(es: seq<Event>, n: string, any: PoolStatus)
    requires IsRun(START, es) && Uncut(START, es)
    requires n in End(START, es).machines && End(START, es).machines[n].ready
    ensures var m := End(START, es).machines[n];
      && m.poolRef.Some?
      && m.providerID == "hyper:///" + Known(START, es, m.poolRef.value, any).hostName
  {
    hide IsRun, End, Known, Uncut, Inv, HostPart;
    StartHolds();
    RunKeeps(START, es);
    L.ReadyAgrees(End(START, es), n);
    StatusReported(es, End(START, es).machines[n].poolRef.value, any);
  }

  // ------------------------------------------------------------- a valid pool keeps its status

  predicate ValidKept(s: State, s': State) {
    forall p :: p in s.pools && Valid(s.pools[p].labels) ==>
      p in s'.pools && Valid(s'.pools[p].labels) && s'.pools[p].status == s.pools[p].status
  }

  lemma CheckKeepsStatus(s: State, q: PoolEvent, p: string)
    requires PS.PoolInv(s) && PoolCan(s, q) && p in s.pools && Valid(s.pools[p].labels)
    ensures p in PoolNext(s, q).pools && PoolNext(s, q).pools[p].status == s.pools[p].status
  {
    hide PS.MachinesOk, PS.MachineWorkerOk, PS.Exclusive, MergeFrom;
    if q.PPatch? && s.pw.name == p {
      assert At(s.pools[p].labels, PoolValid) == At(s.pw.snap.labels, PoolValid);
    }
  }

  lemma StepKeepsValid(s: State, e: Event)
    requires Inv(s) && Enabled(s, e)
    ensures ValidKept(s, Next(s, e))
  {
    hide PS.PoolInv, Next, Enabled, Valid;
    forall p | p in s.pools && Valid(s.pools[p].labels)
      ensures p in Next(s, e).pools && Valid(Next(s, e).pools[p].labels)
      ensures Next(s, e).pools[p].status == s.pools[p].status
    {
      Serial.StaysValid(s, e, p);
      if e.Pool? {
        PoolStep(s, e.p);
        CheckKeepsStatus(s, e.p, p);
      } else {
        OthersKeepStatuses(s, e);
      }
    }
  }
}
