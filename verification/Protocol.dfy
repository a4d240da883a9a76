/** The controllers as one state machine over the objects in the API server. A reconcile is
    split where it talks to the API server or to a node, so the steps of the four controllers,
    of the users and of crashes interleave freely. */
module Protocol {
  import opened Strings
  import opened Labels

  // ------------------------------------------------------------------ stored objects

  datatype PoolStatus = PoolStatus(error: string, os: string, kernel: string, hostName: string, nic: string)

  datatype HyperMachinePool = HyperMachinePool(labels: Labels, address: string, status: PoolStatus)

  datatype HyperIPPool = HyperIPPool(labels: Labels, ip: string)

  /** `finalizer` is the provider's own, the only one; `deleting` a set deletion timestamp. */
  datatype HyperMachine = HyperMachine(finalizer: bool, deleting: bool, poolRef: Option<string>,
                                       providerID: string, ready: bool, addresses: seq<string>)

  datatype HyperCluster = HyperCluster(finalizer: bool, deleting: bool, labels: Labels,
                                       host: string, port: int, ready: bool)

  const FRESH_MACHINE := HyperMachine(false, false, None, "", false, [])

  function FreshCluster(labels: Labels): HyperCluster {
    HyperCluster(false, false, labels, "", 0, false)
  }

  function HostPart(address: string): string {
    Split(address, ":")[0]
  }

  /** The host is what comes before the first colon, or all of an address without a port. */
  lemma HostBeforeColon(address: string)
    ensures var h := HostPart(address); ':' !in h && (h == address || h + ":" <= address)
  {
    var i := Index(address, ":");
    var n := if i < 0 then |address| else i;
    assert HostPart(address) == address[..n];
    if ':' in address[..n] {
      var j :| 0 <= j < n && address[j] == ':';
      assert OccursAt(address, ":", j);
    }
  }

  lemma HostOfPair(h: string, port: string)
    requires ':' !in h
    ensures HostPart(h + ":" + port) == h && HostPart(h) == h
  {
    var rest := ":" + port;
    IndexSkips(h, rest, ":");
    IndexSkips(h, "", ":");
    assert h + ":" + port == h + rest && h + "" == h;
    assert rest[..1] == ":";
  }

  /** controllers/infrastructure/hypermachine_controller.go:162-164 with
      utils/scope/machine.go:119-136. */
  function MadeReady(m: HyperMachine, hmp: HyperMachinePool): HyperMachine {
    m.(ready := true, providerID := "hyper:///" + hmp.status.hostName, addresses := [HostPart(hmp.address)])
  }

  function Adopting(m: HyperMachine, pool: string): HyperMachine {
    m.(poolRef := Some(pool))
  }

  // ------------------------------------------------------------------------- patches

  function Changed<T(==)>(old_: T, new_: T, cur: T): T {
    if old_ != new_ then new_ else cur
  }

  function PatchStatus(o: PoolStatus, n: PoolStatus, cur: PoolStatus): PoolStatus {
    PoolStatus(Changed(o.error, n.error, cur.error), Changed(o.os, n.os, cur.os),
               Changed(o.kernel, n.kernel, cur.kernel), Changed(o.hostName, n.hostName, cur.hostName),
               Changed(o.nic, n.nic, cur.nic))
  }

  function PatchPool(o: HyperMachinePool, n: HyperMachinePool, cur: HyperMachinePool): HyperMachinePool {
    cur.(labels := MergeFrom(o.labels, n.labels, cur.labels), status := PatchStatus(o.status, n.status, cur.status))
  }

  function PatchIP(o: HyperIPPool, n: HyperIPPool, cur: HyperIPPool): HyperIPPool {
    cur.(labels := MergeFrom(o.labels, n.labels, cur.labels))
  }

  function PatchMachine(o: HyperMachine, n: HyperMachine, cur: HyperMachine): HyperMachine {
    HyperMachine(Changed(o.finalizer, n.finalizer, cur.finalizer), cur.deleting,
                 Changed(o.poolRef, n.poolRef, cur.poolRef), Changed(o.providerID, n.providerID, cur.providerID),
                 Changed(o.ready, n.ready, cur.ready), Changed(o.addresses, n.addresses, cur.addresses))
  }

  function PatchCluster(o: HyperCluster, n: HyperCluster, cur: HyperCluster): HyperCluster {
    HyperCluster(Changed(o.finalizer, n.finalizer, cur.finalizer), cur.deleting,
                 MergeFrom(o.labels, n.labels, cur.labels), Changed(o.host, n.host, cur.host),
                 Changed(o.port, n.port, cur.port), Changed(o.ready, n.ready, cur.ready))
  }

  /** The API server drops an object whose deletion was requested once no finalizer holds it. */
  function PutMachine(ms: map<string, HyperMachine>, name: string, m: HyperMachine): map<string, HyperMachine> {
    if m.deleting && !m.finalizer then ms - {name} else ms[name := m]
  }

  function PutCluster(cs: map<string, HyperCluster>, name: string, c: HyperCluster): map<string, HyperCluster> {
    if c.deleting && !c.finalizer then cs - {name} else cs[name := c]
  }

  /** A patch of an object that is gone fails and changes nothing. */
  function CloseMachine(ms: map<string, HyperMachine>, name: string, o: HyperMachine, n: HyperMachine)
    : map<string, HyperMachine>
  {
    if name in ms then PutMachine(ms, name, PatchMachine(o, n, ms[name])) else ms
  }

  function CloseCluster(cs: map<string, HyperCluster>, name: string, o: HyperCluster, n: HyperCluster)
    : map<string, HyperCluster>
  {
    if name in cs then PutCluster(cs, name, PatchCluster(o, n, cs[name])) else cs
  }

  // ---------------------------------------------------------- reconciles under way

  /** `snap` is the machine as read and as the patch helper remembers it, `mem` the object in
      memory; `hmp` is the listed pool and `hc` the cluster as read. */
  datatype MachineWorker =
    | MIdle
    | MList1(name: string, snap: HyperMachine, cluster: string, hc: HyperCluster)
    | MList2(name: string, snap: HyperMachine, cluster: string, hc: HyperCluster)
    | MAdopt(name: string, snap: HyperMachine, cluster: string, hc: HyperCluster, pool: string, hmp: HyperMachinePool)
    | MProvision(name: string, snap: HyperMachine, hc: HyperCluster, pool: string, hmp: HyperMachinePool, asked: bool)
    | MClose(name: string, snap: HyperMachine, mem: HyperMachine)
    | MClean(name: string, snap: HyperMachine, pool: string, hmp: HyperMachinePool)
    | MAbandon(name: string, snap: HyperMachine)
    | MReleased(name: string, snap: HyperMachine)

  datatype ClusterWorker =
    | CIdle
    | CListIP(name: string, snap: HyperCluster)
    | CClaimIP(name: string, snap: HyperCluster, ip: string, hip: HyperIPPool)
    | CListPool(name: string, snap: HyperCluster, mem: HyperCluster)
    | CMarkPool(name: string, snap: HyperCluster, mem: HyperCluster, pool: string, hmp: HyperMachinePool)
    | CClose(name: string, snap: HyperCluster, mem: HyperCluster)
    | CFree(name: string, snap: HyperCluster, ip: string, hip: HyperIPPool)
    | CReleased(name: string, snap: HyperCluster)

  datatype PoolWorker = PIdle | PCheck(name: string, snap: HyperMachinePool)

  datatype IPWorker = IIdle | IInit(name: string, snap: HyperIPPool)

  /** Why a pool carries a cluster name without being referenced: its adoption was superseded
      by a later one of the same machine, its machine was deleted while the node could not be
      reached, the adopting reconcile crashed, or it was created that way. */
  datatype Cause = Superseded | Abandoned | Crashed | Preset

  /** `lost` and `given` are history: the pools lost and why, and the priorities given out on
      an IP since it was claimed. */
  datatype State = State(pools: map<string, HyperMachinePool>, ips: map<string, HyperIPPool>,
                         machines: map<string, HyperMachine>, clusters: map<string, HyperCluster>,
                         mw: MachineWorker, cw: ClusterWorker, pw: PoolWorker, iw: IPWorker,
                         lost: map<string, Cause>, given: map<string, seq<string>>)

  const START := State(map[], map[], map[], map[], MIdle, CIdle, PIdle, IIdle, map[], map[])

  // --------------------------------------------------------------------------- events

  datatype SshResult = Down(error: string) | Up(os: string, kernel: string, hostName: string, nic: string)

  datatype UserEvent =
    | NewPool(name: string, hmp: HyperMachinePool)
    | NewIP(name: string, hip: HyperIPPool)
    | NewMachine(name: string)
    | NewCluster(name: string, labels: Labels)
    | DeleteMachine(name: string)
    | DeleteCluster(name: string)

  datatype MachineEvent =
    | MBegin(name: string, owned: bool, cluster: string, hcName: string, provisioning: bool)
    | MPick1(choice: Option<string>)
    | MPick2(choice: Option<string>)
    | MAdoptPatch
    | MAskPriority
    | MFinish(ok: bool)
    | MUnreachable
    | MRelease
    | MEnd
    | MCrash

  datatype ClusterEvent =
    | CBegin(name: string, owned: bool)
    | CPickIP(choice: Option<string>)
    | CClaim
    | CPickPool(choice: Option<string>)
    | CMark
    | CRelease
    | CEnd
    | CCrash

  datatype PoolEvent = PBegin(name: string) | PPatch(ssh: SshResult) | PCrash

  datatype IPEvent = IBegin(name: string) | IPatch | ICrash

  datatype Event = User(u: UserEvent) | Machine(m: MachineEvent) | Cluster(c: ClusterEvent) | Pool(p: PoolEvent)
                 | IP(i: IPEvent)

  predicate IsFree(hmp: HyperMachinePool) {
    Valid(hmp.labels) && At(hmp.labels, ClusterName) == Some("")
  }

  predicate IsMarked(hmp: HyperMachinePool) {
    At(hmp.labels, ControlPlane) == Some("")
  }

  /** The label selectors of controllers/infrastructure/hypermachine_controller.go:182-203. */
  lemma PoolSelectors(hmp: HyperMachinePool)
    ensures IsFree(hmp) <==> Matches(hmp.labels, map[PoolValid := "true", ClusterName := ""])
    ensures IsFree(hmp) && IsMarked(hmp) <==>
            Matches(hmp.labels, map[PoolValid := "true", ControlPlane := "", ClusterName := ""])
    ensures Valid(hmp.labels) <==> Matches(hmp.labels, map[PoolValid := "true"])
  {
  }

  /** `Items[0]` of a list is any element; None stands for an empty list. */
  predicate Picks(choice: Option<string>, matching: set<string>) {
    if choice.Some? then choice.value in matching else matching == {}
  }

  function FreePools(s: State): set<string> {
    set p | p in s.pools && IsFree(s.pools[p])
  }

  function FreeMarkedPools(s: State): set<string> {
    set p | p in s.pools && IsFree(s.pools[p]) && IsMarked(s.pools[p])
  }

  function ValidPools(s: State): set<string> {
    set p | p in s.pools && Valid(s.pools[p].labels)
  }

  function FreeIPs(s: State): set<string> {
    set i | i in s.ips && At(s.ips[i].labels, IPPool) == Some("")
  }

  predicate KnownOS(hmp: HyperMachinePool) {
    hmp.status.os == "ubuntu" || hmp.status.os == "centos"
  }

  predicate UserCan(s: State, e: UserEvent) {
    match e
    case NewPool(name, _) => name !in s.pools
    case NewIP(name, _) => name !in s.ips
    case NewMachine(name) => name !in s.machines
    case NewCluster(name, labels) => name !in s.clusters && IPPoolName !in labels
    case DeleteMachine(name) => name in s.machines
    case DeleteCluster(name) => name in s.clusters
  }

  predicate MachineCan(s: State, e: MachineEvent) {
    match e
    case MBegin(_, _, cluster, _, _) => s.mw.MIdle? && cluster != ""
    case MPick1(choice) => s.mw.MList1? && Picks(choice, FreeMarkedPools(s))
    case MPick2(choice) => s.mw.MList2? && Picks(choice, FreePools(s))
    case MAdoptPatch => s.mw.MAdopt? && s.mw.pool in s.pools
    case MAskPriority => s.mw.MProvision? && !s.mw.asked && KnownOS(s.mw.hmp)
    case MFinish(_) => s.mw.MProvision?
    case MUnreachable => s.mw.MClean?
    case MRelease => s.mw.MClean? && s.mw.pool in s.pools
    case MEnd => s.mw.MClose? || s.mw.MAbandon? || s.mw.MReleased?
    case MCrash => !s.mw.MIdle?
  }

  predicate ClusterCan(s: State, e: ClusterEvent) {
    match e
    case CBegin(_, _) => s.cw.CIdle?
    case CPickIP(choice) => s.cw.CListIP? && Picks(choice, FreeIPs(s))
    case CClaim => s.cw.CClaimIP? && s.cw.ip in s.ips
    case CPickPool(choice) => s.cw.CListPool? && Picks(choice, ValidPools(s))
    case CMark => s.cw.CMarkPool? && s.cw.pool in s.pools
    case CRelease => s.cw.CFree? && s.cw.ip in s.ips
    case CEnd => s.cw.CClose? || s.cw.CReleased?
    case CCrash => !s.cw.CIdle?
  }

  predicate PoolCan(s: State, e: PoolEvent) {
    match e
    case PBegin(_) => s.pw.PIdle?
    case PPatch(_) => s.pw.PCheck? && s.pw.name in s.pools
    case PCrash => s.pw.PCheck?
  }

  predicate IPCan(s: State, e: IPEvent) {
    match e
    case IBegin(_) => s.iw.IIdle?
    case IPatch => s.iw.IInit? && s.iw.name in s.ips
    case ICrash => s.iw.IInit?
  }

  predicate Enabled(s: State, e: Event) {
    match e
    case User(u) => UserCan(s, u)
    case Machine(m) => MachineCan(s, m)
    case Cluster(c) => ClusterCan(s, c)
    case Pool(p) => PoolCan(s, p)
    case IP(i) => IPCan(s, i)
  }

  // ---------------------------------------------------------------------------- users

  function AddPool(s: State, name: string, hmp: HyperMachinePool): State {
    s.(pools := s.pools[name := hmp],
       lost := if Taken(hmp) then s.lost[name := Preset] else s.lost)
  }

  /** The pool carries a non-empty cluster name. */
  predicate Taken(hmp: HyperMachinePool) {
    ClusterName in hmp.labels && hmp.labels[ClusterName] != ""
  }

  // --------------------------------------------------------------- HyperMachine controller

  /** controllers/infrastructure/hypermachine_controller.go:59-148 up to the first list, or up
      to the pool of a deleted machine (:246-270). Not being owned covers every early return of
      the reads before the scope is made. */
  function BegunMachine(s: State, name: string, owned: bool, cluster: string, hcName: string, provisioning: bool)
    : MachineWorker
  {
    if name !in s.machines then MIdle
    else
      var hm := s.machines[name];
      if hm.deleting then
        if hm.poolRef.None? then MClose(name, hm, hm.(finalizer := false))
        else if hm.poolRef.value !in s.pools then MIdle
        else MClean(name, hm, hm.poolRef.value, s.pools[hm.poolRef.value])
      else if !owned || hcName !in s.clusters then MIdle
      else if !hm.finalizer then MClose(name, hm, hm.(finalizer := true))
      else if hm.ready || hm.providerID != "" || !provisioning then MClose(name, hm, hm)
      else MList1(name, hm, cluster, s.clusters[hcName])
  }

  function PickMarked(s: State, choice: Option<string>): (s': State)
    requires s.mw.MList1? && Picks(choice, FreeMarkedPools(s))
    ensures s' == s.(mw := s'.mw)
  {
    var w := s.mw;
    if choice.Some? then s.(mw := MAdopt(w.name, w.snap, w.cluster, w.hc, choice.value, s.pools[choice.value]))
    else s.(mw := MList2(w.name, w.snap, w.cluster, w.hc))
  }

  function PickAny(s: State, choice: Option<string>): (s': State)
    requires s.mw.MList2? && Picks(choice, FreePools(s))
    ensures s' == s.(mw := s'.mw)
  {
    var w := s.mw;
    if choice.Some? then s.(mw := MAdopt(w.name, w.snap, w.cluster, w.hc, choice.value, s.pools[choice.value]))
    else s.(mw := MClose(w.name, w.snap, w.snap))
  }

  /** `adoptOrphan`: the patch reaches the pool, the reference stays in memory. */
  function AdoptPatch(s: State): (s': State)
    requires s.mw.MAdopt? && s.mw.pool in s.pools
    ensures s' == s.(pools := s'.pools, mw := s'.mw)
  {
    var w := s.mw;
    var newhmp := w.hmp.(labels := Adopted(w.hmp.labels, w.cluster));
    s.(pools := s.pools[w.pool := PatchPool(w.hmp, newhmp, s.pools[w.pool])],
       mw := MProvision(w.name, w.snap, w.hc, w.pool, w.hmp, false))
  }

  /** utils/provisioning.go:170-189: the next counter text and the priority given out. */
  function NextPriority(count: string): Option<(string, string)> {
    var num := Atoi(count);
    if num.None? then None
    else Some((Itoa(Wrap64(num.value + 1)), Itoa(Wrap64(100 - num.value))))
  }

  function AskPriority(s: State): (r: State)
    requires s.mw.MProvision?
    ensures r == s.(ips := r.ips, given := r.given, mw := s.mw.(asked := true))
  {
    var s' := s.(mw := s.mw.(asked := true));
    if IPPoolName !in s.mw.hc.labels then s'
    else
      var i := s.mw.hc.labels[IPPoolName];
      if i !in s.ips || IPPool !in s.ips[i].labels then s'
      else
        var next := NextPriority(s.ips[i].labels[IPPool]);
        if next.None? then s'
        else s'.(ips := s.ips[i := s.ips[i].(labels := s.ips[i].labels[IPPool := next.value.0])],
                 given := if i in s.given then s.given[i := s.given[i] + [next.value.1]] else s.given)
  }

  function FinishProvision(s: State, ok: bool): (s': State)
    requires s.mw.MProvision?
    ensures s' == s.(mw := s'.mw)
  {
    var w := s.mw;
    var mem := Adopting(w.snap, w.pool);
    s.(mw := MClose(w.name, w.snap, if ok then MadeReady(mem, w.hmp) else mem))
  }

  function ReleasePool(s: State): (s': State)
    requires s.mw.MClean? && s.mw.pool in s.pools
    ensures s' == s.(pools := s'.pools, mw := s'.mw)
  {
    var w := s.mw;
    var newhmp := w.hmp.(labels := Released(w.hmp.labels));
    s.(pools := s.pools[w.pool := PatchPool(w.hmp, newhmp, s.pools[w.pool])], mw := MReleased(w.name, w.snap))
  }

  /** `Close`, or the last patch of the delete path. */
  function EndMachine(s: State): (s': State)
    requires s.mw.MClose? || s.mw.MAbandon? || s.mw.MReleased?
    ensures s' == s.(machines := s'.machines, mw := MIdle, lost := s'.lost)
  {
    var w := s.mw;
    var mem := if w.MClose? then w.mem else w.snap.(finalizer := false);
    var old_ := w.snap.poolRef;
    s.(machines := CloseMachine(s.machines, w.name, w.snap, mem), mw := MIdle,
       lost := if w.MReleased? || old_.None? then s.lost
               else if w.MAbandon? then s.lost[old_.value := Abandoned]
               else if mem.poolRef != old_ then s.lost[old_.value := Superseded]
               else s.lost)
  }

  /** The pool an unfinished adoption holds. */
  function InFlight(mw: MachineWorker): Option<string> {
    if mw.MProvision? then Some(mw.pool)
    else if mw.MClose? && mw.mem.poolRef != mw.snap.poolRef then mw.mem.poolRef
    else None
  }

  function CrashMachine(s: State): State {
    var p := InFlight(s.mw);
    s.(mw := MIdle, lost := if p.Some? then s.lost[p.value := Crashed] else s.lost)
  }

  // --------------------------------------------------------------- HyperCluster controller

  /** controllers/infrastructure/hypercluster_controller.go:57-141 up to the first list, or up
      to the IP of a deleted cluster (:122-125). */
  function BegunCluster(s: State, name: string, owned: bool): ClusterWorker {
    if name !in s.clusters || !owned then CIdle
    else
      var hc := s.clusters[name];
      if !hc.finalizer then CClose(name, hc, hc.(finalizer := true))
      else if hc.deleting then
        if IPPoolName !in hc.labels then CClose(name, hc, hc.(finalizer := false))
        else if hc.labels[IPPoolName] !in s.ips then CIdle
        else CFree(name, hc, hc.labels[IPPoolName], s.ips[hc.labels[IPPoolName]])
      else if hc.host != "" || hc.ready then CClose(name, hc, hc)
      else CListIP(name, hc)
  }

  function PickIP(s: State, choice: Option<string>): (s': State)
    requires s.cw.CListIP? && Picks(choice, FreeIPs(s))
    ensures s' == s.(cw := s'.cw)
  {
    var w := s.cw;
    if choice.Some? then s.(cw := CClaimIP(w.name, w.snap, choice.value, s.ips[choice.value]))
    else s.(cw := CListPool(w.name, w.snap, w.snap))
  }

  function WithEndpoint(hc: HyperCluster, host: string): HyperCluster {
    hc.(host := host, port := 6443, ready := true)
  }

  /** The claim is patched and noted in memory; an IP pool without an address falls through to
      the machine pools. */
  function ClaimIP(s: State): (s': State)
    requires s.cw.CClaimIP? && s.cw.ip in s.ips
    ensures s' == s.(ips := s'.ips, given := s'.given, cw := s'.cw)
  {
    var w := s.cw;
    var newhip := w.hip.(labels := w.hip.labels[IPPool := "0"]);
    var mem := w.snap.(labels := w.snap.labels[IPPoolName := w.ip]);
    s.(ips := s.ips[w.ip := PatchIP(w.hip, newhip, s.ips[w.ip])],
       given := s.given[w.ip := []],
       cw := if w.hip.ip != "" then CClose(w.name, w.snap, WithEndpoint(mem, w.hip.ip))
             else CListPool(w.name, w.snap, mem))
  }

  function PickPool(s: State, choice: Option<string>): (s': State)
    requires s.cw.CListPool? && Picks(choice, ValidPools(s))
    ensures s' == s.(cw := s'.cw)
  {
    var w := s.cw;
    if choice.Some? then s.(cw := CMarkPool(w.name, w.snap, w.mem, choice.value, s.pools[choice.value]))
    else s.(cw := CClose(w.name, w.snap, w.mem))
  }

  function MarkPool(s: State): (s': State)
    requires s.cw.CMarkPool? && s.cw.pool in s.pools
    ensures s' == s.(pools := s'.pools, cw := s'.cw)
  {
    var w := s.cw;
    var newhmp := w.hmp.(labels := Marked(w.hmp.labels));
    var host := HostPart(w.hmp.address);
    s.(pools := s.pools[w.pool := PatchPool(w.hmp, newhmp, s.pools[w.pool])],
       cw := CClose(w.name, w.snap, if host == "" then w.mem else WithEndpoint(w.mem, host)))
  }

  function ReleaseIP(s: State): (s': State)
    requires s.cw.CFree? && s.cw.ip in s.ips
    ensures s' == s.(ips := s'.ips, given := s'.given, cw := s'.cw)
  {
    var w := s.cw;
    var newhip := w.hip.(labels := w.hip.labels[IPPool := ""]);
    s.(ips := s.ips[w.ip := PatchIP(w.hip, newhip, s.ips[w.ip])], given := s.given - {w.ip},
       cw := CReleased(w.name, w.snap))
  }

  function EndCluster(s: State): (s': State)
    requires s.cw.CClose? || s.cw.CReleased?
    ensures s' == s.(clusters := s'.clusters, cw := CIdle)
  {
    var w := s.cw;
    var mem := if w.CClose? then w.mem else w.snap.(finalizer := false);
    s.(clusters := CloseCluster(s.clusters, w.name, w.snap, mem), cw := CIdle)
  }

  // ----------------------------------------------------------------- pool and IP controllers

  /** A reconcile of the pool controller between its read and its patch. */
  function CheckedPool(snap: HyperMachinePool, ssh: SshResult): HyperMachinePool {
    var labels := Checked(snap.labels, ssh.Up?);
    if CountsAsValid(snap.labels) then snap
    else if ssh.Down? then snap.(labels := labels, status := snap.status.(error := ssh.error))
    else HyperMachinePool(labels, snap.address,
                          PoolStatus(snap.status.error, ssh.os, ssh.kernel, ssh.hostName, ssh.nic))
  }

  function CheckPool(s: State, ssh: SshResult): (s': State)
    requires s.pw.PCheck? && s.pw.name in s.pools
    ensures s' == s.(pools := s'.pools, pw := PIdle, lost := s'.lost)
  {
    var w := s.pw;
    s.(pools := s.pools[w.name := PatchPool(w.snap, CheckedPool(w.snap, ssh), s.pools[w.name])], pw := PIdle,
       lost := if PoolValid in w.snap.labels then s.lost else s.lost - {w.name})
  }

  function InitIP(s: State): (s': State)
    requires s.iw.IInit? && s.iw.name in s.ips
    ensures s' == s.(ips := s'.ips, iw := IIdle)
  {
    var w := s.iw;
    var mem := if IPPool in w.snap.labels then w.snap else w.snap.(labels := w.snap.labels[IPPool := ""]);
    s.(ips := s.ips[w.name := PatchIP(w.snap, mem, s.ips[w.name])], iw := IIdle)
  }

  // ------------------------------------------------------------------------------ a step

  function UserNext(s: State, e: UserEvent): State
    requires UserCan(s, e)
  {
    match e
    case NewPool(name, hmp) => AddPool(s, name, hmp)
    case NewIP(name, hip) => s.(ips := s.ips[name := hip])
    case NewMachine(name) => s.(machines := s.machines[name := FRESH_MACHINE])
    case NewCluster(name, labels) => s.(clusters := s.clusters[name := FreshCluster(labels)])
    case DeleteMachine(name) =>
      s.(machines := PutMachine(s.machines, name, s.machines[name].(deleting := true)))
    case DeleteCluster(name) =>
      s.(clusters := PutCluster(s.clusters, name, s.clusters[name].(deleting := true)))
  }

  function MachineNext(s: State, e: MachineEvent): State
    requires MachineCan(s, e)
  {
    match e
    case MBegin(name, owned, cluster, hcName, provisioning) =>
      s.(mw := BegunMachine(s, name, owned, cluster, hcName, provisioning))
    case MPick1(choice) => PickMarked(s, choice)
    case MPick2(choice) => PickAny(s, choice)
    case MAdoptPatch => AdoptPatch(s)
    case MAskPriority => AskPriority(s)
    case MFinish(ok) => FinishProvision(s, ok)
    case MUnreachable => s.(mw := MAbandon(s.mw.name, s.mw.snap))
    case MRelease => ReleasePool(s)
    case MEnd => EndMachine(s)
    case MCrash => CrashMachine(s)
  }

  function ClusterNext(s: State, e: ClusterEvent): State
    requires ClusterCan(s, e)
  {
    match e
    case CBegin(name, owned) => s.(cw := BegunCluster(s, name, owned))
    case CPickIP(choice) => PickIP(s, choice)
    case CClaim => ClaimIP(s)
    case CPickPool(choice) => PickPool(s, choice)
    case CMark => MarkPool(s)
    case CRelease => ReleaseIP(s)
    case CEnd => EndCluster(s)
    case CCrash => s.(cw := CIdle)
  }

  function PoolNext(s: State, e: PoolEvent): State
    requires PoolCan(s, e)
  {
    match e
    case PBegin(name) => s.(pw := if name in s.pools then PCheck(name, s.pools[name]) else PIdle)
    case PPatch(ssh) => CheckPool(s, ssh)
    case PCrash => s.(pw := PIdle)
  }

  function IPNext(s: State, e: IPEvent): State
    requires IPCan(s, e)
  {
    match e
    case IBegin(name) => s.(iw := if name in s.ips then IInit(name, s.ips[name]) else IIdle)
    case IPatch => InitIP(s)
    case ICrash => s.(iw := IIdle)
  }

  function Next(s: State, e: Event): State
    requires Enabled(s, e)
  {
    match e
    case User(u) => UserNext(s, u)
    case Machine(m) => MachineNext(s, m)
    case Cluster(c) => ClusterNext(s, c)
    case Pool(p) => PoolNext(s, p)
    case IP(i) => IPNext(s, i)
  }

  /** A crash between the release of a pool or an IP and the removal of the finalizer. */
  predicate CutsRelease(s: State, e: Event) {
    (e == Machine(MCrash) && s.mw.MReleased?) || (e == Cluster(CCrash) && s.cw.CReleased?)
  }

  // ------------------------------------------------------ what a controller leaves alone

  lemma ClusterFrame(s: State, e: ClusterEvent)
    requires ClusterCan(s, e)
    ensures var s' := ClusterNext(s, e);
      && s'.machines == s.machines && s'.mw == s.mw && s'.pw == s.pw && s'.iw == s.iw && s'.lost == s.lost
      && (!e.CMark? ==> s'.pools == s.pools)
  {
    hide Picks, BegunCluster, PickIP, ClaimIP, PickPool, MarkPool, ReleaseIP, EndCluster;
  }

  lemma PoolFrame(s: State, e: PoolEvent)
    requires PoolCan(s, e)
    ensures var s' := PoolNext(s, e);
      && s'.machines == s.machines && s'.clusters == s.clusters && s'.ips == s.ips && s'.given == s.given
      && s'.mw == s.mw && s'.cw == s.cw && s'.iw == s.iw
      && (e.PPatch? ==> s'.lost == s.lost || s'.lost == s.lost - {s.pw.name})
      && (!e.PPatch? ==> s'.pools == s.pools && s'.lost == s.lost)
  {
    hide PatchPool, CheckedPool;
  }

  lemma IPFrame(s: State, e: IPEvent)
    requires IPCan(s, e)
    ensures var s' := IPNext(s, e); s' == s.(ips := s'.ips, iw := s'.iw)
    ensures !e.IPatch? ==> IPNext(s, e).ips == s.ips
  {
    hide PatchIP;
  }

  // -------------------------------------------------------------------------------- runs

  predicate IsRun(s: State, es: seq<Event>)
    decreases |es|
  {
    es == [] || (Enabled(s, es[0]) && IsRun(Next(s, es[0]), es[1..]))
  }

  function End(s: State, es: seq<Event>): State
    requires IsRun(s, es)
    decreases |es|
  {
    if es == [] then s else End(Next(s, es[0]), es[1..])
  }

  /** No crash cuts a release short. */
  predicate Uncut(s: State, es: seq<Event>)
    requires IsRun(s, es)
    decreases |es|
  {
    es == [] || (!CutsRelease(s, es[0]) && Uncut(Next(s, es[0]), es[1..]))
  }
}
