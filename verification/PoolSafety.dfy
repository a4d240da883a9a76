/** What every step keeps about machines and machine pools: no two machines reference one
    pool, every referenced pool is valid and carries a cluster name, resources are held only
    under a finalizer, and ready machines agree with their pool. */
module PoolSafety {
  import opened Strings
  import opened Labels
  import opened Protocol

  /** A pool that was adopted: valid and carrying a cluster name. */
  predicate Held(pools: map<string, HyperMachinePool>, p: string) {
    p in pools && Valid(pools[p].labels) && Taken(pools[p])
  }

  /** Between the release of the pool and the removal of the finalizer. */
  predicate Releasing(mw: MachineWorker, name: string) {
    mw.MReleased? && mw.name == name
  }

  /** A ready machine carries its pool's host name and address; any other carries nothing. */
  predicate Agrees(pools: map<string, HyperMachinePool>, m: HyperMachine) {
    if m.ready then
      && m.poolRef.Some? && m.poolRef.value in pools && Valid(pools[m.poolRef.value].labels)
      && m.providerID == "hyper:///" + pools[m.poolRef.value].status.hostName
      && m.addresses == [HostPart(pools[m.poolRef.value].address)]
    else
      m.providerID == "" && m.addresses == []
  }

  predicate MachineOk(pools: map<string, HyperMachinePool>, mw: MachineWorker, name: string, m: HyperMachine) {
    && (!m.finalizer ==> m == FRESH_MACHINE)
    && (m.poolRef.Some? ==>
          var p := m.poolRef.value;
          p in pools && Valid(pools[p].labels) && (Taken(pools[p]) || Releasing(mw, name)))
    && Agrees(pools, m)
  }

  ghost predicate Exclusive(ms: map<string, HyperMachine>) {
    forall a, b :: a in ms && b in ms && a != b && ms[a].poolRef.Some? ==> ms[b].poolRef != ms[a].poolRef
  }

  ghost predicate Unreferenced(ms: map<string, HyperMachine>, p: string) {
    forall n :: n in ms ==> ms[n].poolRef != Some(p)
  }

  /** The object is as it was read, but for a deletion requested meanwhile. */
  predicate Unchanged(snap: HyperMachine, m: HyperMachine) {
    m == snap.(deleting := m.deleting) && (snap.deleting ==> m.deleting)
  }

  predicate Kept(ms: map<string, HyperMachine>, name: string, snap: HyperMachine) {
    name in ms && Unchanged(snap, ms[name]) && snap.finalizer
  }

  /** The pool is as it was listed in all that matters to an adoption. */
  predicate StillListed(pools: map<string, HyperMachinePool>, p: string, hmp: HyperMachinePool) {
    p in pools && Valid(pools[p].labels) && pools[p].status == hmp.status && pools[p].address == hmp.address
  }

  predicate Idle(snap: HyperMachine) {
    !snap.ready && snap.providerID == "" && snap.addresses == [] && !snap.deleting
  }

  ghost predicate MachineWorkerOk(s: State) {
    match s.mw
    case MIdle => true
    case MList1(name, snap, cluster, _) => Kept(s.machines, name, snap) && Idle(snap) && cluster != ""
    case MList2(name, snap, cluster, _) => Kept(s.machines, name, snap) && Idle(snap) && cluster != ""
    case MAdopt(name, snap, cluster, _, pool, hmp) =>
      && Kept(s.machines, name, snap) && Idle(snap) && cluster != ""
      && StillListed(s.pools, pool, hmp) && IsFree(hmp) && IsFree(s.pools[pool])
    case MProvision(name, snap, _, pool, hmp, _) =>
      && Kept(s.machines, name, snap) && Idle(snap)
      && StillListed(s.pools, pool, hmp) && Held(s.pools, pool) && Unreferenced(s.machines, pool)
    case MClose(name, snap, mem) =>
      && (name in s.machines ==> Unchanged(snap, s.machines[name]))
      && (if snap.finalizer then Kept(s.machines, name, snap) else snap == FRESH_MACHINE)
      && mem.deleting == snap.deleting && Agrees(s.pools, mem)
      && (mem.poolRef.Some? ==> mem.finalizer && snap.finalizer)
      && (mem.poolRef != snap.poolRef ==>
            mem.poolRef.Some? && Held(s.pools, mem.poolRef.value) && Unreferenced(s.machines, mem.poolRef.value))
      && (!mem.finalizer ==> snap.deleting && snap.poolRef.None?)
      && (snap.ready ==> mem == snap.(finalizer := mem.finalizer))
    case MClean(name, snap, pool, hmp) =>
      && Kept(s.machines, name, snap) && snap.deleting && snap.poolRef == Some(pool)
      && pool in s.pools && Taken(hmp) && At(hmp.labels, ClusterName) == At(s.pools[pool].labels, ClusterName)
    case MAbandon(name, snap) => Kept(s.machines, name, snap) && snap.deleting && snap.poolRef.Some?
    case MReleased(name, snap) =>
      && Kept(s.machines, name, snap) && snap.deleting && snap.poolRef.Some?
      && snap.poolRef.value in s.pools && At(s.pools[snap.poolRef.value].labels, ClusterName) == Some("")
  }

  /** A pending patch of the pool controller meets the valid label it read; one that is to
      initialise the pool, also the cluster name. */
  predicate PoolWorkerOk(pools: map<string, HyperMachinePool>, pw: PoolWorker) {
    pw.PCheck? ==>
      && pw.name in pools
      && At(pools[pw.name].labels, PoolValid) == At(pw.snap.labels, PoolValid)
      && (PoolValid !in pw.snap.labels ==>
            At(pools[pw.name].labels, ClusterName) == At(pw.snap.labels, ClusterName))
  }

  ghost predicate MachinesOk(s: State) {
    forall n :: n in s.machines ==> MachineOk(s.pools, s.mw, n, s.machines[n])
  }

  ghost predicate PoolInv(s: State) {
    MachinesOk(s) && Exclusive(s.machines) && MachineWorkerOk(s) && PoolWorkerOk(s.pools, s.pw)
  }

  // ----------------------------------------------------------------- changes to one pool

  /** A valid pool keeps its validity, status, address and cluster name. */
  predicate Keeps(old_: HyperMachinePool, new_: HyperMachinePool) {
    && new_.address == old_.address
    && (Valid(old_.labels) ==>
          && Valid(new_.labels) && new_.status == old_.status
          && At(new_.labels, ClusterName) == At(old_.labels, ClusterName))
  }

  lemma TakenAt(hmp: HyperMachinePool)
    ensures Taken(hmp) <==> At(hmp.labels, ClusterName).Some? && At(hmp.labels, ClusterName) != Some("")
  {
  }

  lemma ChangeKeepsMachines(s: State, p: string, hmp: HyperMachinePool)
    requires MachinesOk(s) && (p in s.pools ==> Keeps(s.pools[p], hmp))
    ensures MachinesOk(s.(pools := s.pools[p := hmp]))
  {
    hide HostPart;
    var s' := s.(pools := s.pools[p := hmp]);
    if p in s.pools { TakenAt(s.pools[p]); }
    TakenAt(hmp);
    forall n | n in s'.machines ensures MachineOk(s'.pools, s'.mw, n, s'.machines[n]) {
      assert MachineOk(s.pools, s.mw, n, s.machines[n]);
    }
  }

  /** What the machine worker relies on about a pool survives. */
  lemma KeepsPool(pools: map<string, HyperMachinePool>, p: string, hmp: HyperMachinePool, q: string)
    requires (p in pools ==> Keeps(pools[p], hmp)) && q in pools && Valid(pools[q].labels)
    ensures var pools' := pools[p := hmp];
      && Valid(pools'[q].labels) && pools'[q].status == pools[q].status && pools'[q].address == pools[q].address
      && At(pools'[q].labels, ClusterName) == At(pools[q].labels, ClusterName)
      && Taken(pools'[q]) == Taken(pools[q])
  {
    TakenAt(pools[q]);
    TakenAt(pools[p := hmp][q]);
  }

  lemma KeepsAdopting(s: State, p: string, hmp: HyperMachinePool)
    requires MachineWorkerOk(s) && (p in s.pools ==> Keeps(s.pools[p], hmp))
    requires s.mw.MAdopt? || s.mw.MProvision?
    ensures MachineWorkerOk(s.(pools := s.pools[p := hmp]))
  {
    hide Kept, Unreferenced, Idle, Keeps, Valid, Taken, At;
    KeepsPool(s.pools, p, hmp, s.mw.pool);
  }

  lemma KeepsClosing(s: State, p: string, hmp: HyperMachinePool)
    requires MachineWorkerOk(s) && (p in s.pools ==> Keeps(s.pools[p], hmp))
    requires s.mw.MClose?
    ensures MachineWorkerOk(s.(pools := s.pools[p := hmp]))
  {
    hide HostPart, Kept, Unreferenced, Keeps, Valid, Taken;
    var mem := s.mw.mem;
    if mem.poolRef.Some? && mem.poolRef.value in s.pools && Valid(s.pools[mem.poolRef.value].labels) {
      KeepsPool(s.pools, p, hmp, mem.poolRef.value);
    }
  }

  lemma KeepsReleasing(s: State, p: string, hmp: HyperMachinePool)
    requires MachinesOk(s) && MachineWorkerOk(s) && (p in s.pools ==> Keeps(s.pools[p], hmp))
    requires s.mw.MClean? || s.mw.MReleased?
    ensures MachineWorkerOk(s.(pools := s.pools[p := hmp]))
  {
    hide HostPart, Kept, MachinesOk, Keeps, Valid, Taken, At;
    MachineKept(s);
    MachineAt(s, s.mw.name);
    KeepsPool(s.pools, p, hmp, s.mw.snap.poolRef.value);
  }

  lemma ChangeKeepsWorker(s: State, p: string, hmp: HyperMachinePool)
    requires MachinesOk(s) && MachineWorkerOk(s) && (p in s.pools ==> Keeps(s.pools[p], hmp))
    ensures MachineWorkerOk(s.(pools := s.pools[p := hmp]))
  {
    hide Kept, Idle, MachinesOk, Keeps;
    if s.mw.MAdopt? || s.mw.MProvision? { KeepsAdopting(s, p, hmp); }
    else if s.mw.MClose? { KeepsClosing(s, p, hmp); }
    else if s.mw.MClean? || s.mw.MReleased? { KeepsReleasing(s, p, hmp); }
  }

  lemma MachineKept(s: State)
    requires MachineWorkerOk(s) && (s.mw.MClean? || s.mw.MReleased?)
    ensures s.mw.name in s.machines && s.machines[s.mw.name].poolRef == s.mw.snap.poolRef
  {
  }

  /** The machine worker moves on, no release pending before or after. */
  lemma WorkerMoves(s: State, mw: MachineWorker)
    requires MachinesOk(s) && !s.mw.MReleased? && !mw.MReleased?
    ensures MachinesOk(s.(mw := mw))
  {
    hide Agrees, Held;
    forall n | n in s.machines ensures MachineOk(s.pools, mw, n, s.machines[n]) {
      assert MachineOk(s.pools, s.mw, n, s.machines[n]);
    }
  }

  // ---------------------------------------------------------------------- users and crashes

  lemma NewPoolKeeps(s: State, name: string, hmp: HyperMachinePool)
    requires PoolInv(s) && name !in s.pools
    ensures PoolInv(AddPool(s, name, hmp))
  {
    hide MachineWorkerOk, MachinesOk;
    ChangeKeepsMachines(s, name, hmp);
    ChangeKeepsWorker(s, name, hmp);
    SamePoolState(s.(pools := s.pools[name := hmp]), AddPool(s, name, hmp));
  }

  /** The invariant speaks of pools, machines and the two workers only. */
  lemma SamePoolState(s: State, s': State)
    requires s'.pools == s.pools && s'.machines == s.machines && s'.mw == s.mw
    ensures MachinesOk(s) ==> MachinesOk(s')
    ensures MachineWorkerOk(s) ==> MachineWorkerOk(s')
  {
    hide MachineOk, Unreferenced, Held, Agrees, StillListed;
  }

  lemma NewKeepsMachines(s: State, name: string)
    requires MachinesOk(s) && Exclusive(s.machines) && name !in s.machines
    ensures var s' := s.(machines := s.machines[name := FRESH_MACHINE]); MachinesOk(s') && Exclusive(s'.machines)
  {
    hide HostPart, Taken, Valid;
    var s' := s.(machines := s.machines[name := FRESH_MACHINE]);
    forall n | n in s'.machines ensures MachineOk(s'.pools, s'.mw, n, s'.machines[n]) {
      if n != name { MachineAt(s, n); }
    }
  }

  lemma NewMachineKeeps(s: State, name: string)
    requires PoolInv(s) && name !in s.machines
    ensures PoolInv(s.(machines := s.machines[name := FRESH_MACHINE]))
  {
    hide MachinesOk, Exclusive, Held, StillListed, HostPart, Taken, Valid, IsFree, Idle, Agrees;
    NewKeepsMachines(s, name);
  }

  /** Every machine but `name` stays, `name` at most gets its deletion requested. */
  lemma DeleteFrame(s: State, name: string, n: string)
    requires name in s.machines
    ensures var ms := UserNext(s, DeleteMachine(name)).machines;
      && (n in ms ==> n in s.machines && ms[n] == s.machines[n].(deleting := ms[n].deleting)
                      && (s.machines[n].deleting ==> ms[n].deleting))
      && (n in s.machines && s.machines[n].finalizer ==> n in ms)
      && (n in ms && !s.machines[n].finalizer ==> n != name && ms[n] == s.machines[n])
  {
  }

  lemma DeleteKeepsMachines(s: State, name: string)
    requires MachinesOk(s) && Exclusive(s.machines) && name in s.machines
    ensures var s' := UserNext(s, DeleteMachine(name)); MachinesOk(s') && Exclusive(s'.machines)
  {
    hide Held, Taken, HostPart, UserNext, Valid;
    var s' := UserNext(s, DeleteMachine(name));
    DeleteFrameStore(s, name);
    forall n | n in s'.machines
      ensures MachineOk(s'.pools, s'.mw, n, s'.machines[n])
      ensures n in s.machines && s'.machines[n].poolRef == s.machines[n].poolRef
    {
      DeleteFrame(s, name, n);
      MachineAt(s, n);
    }
  }

  lemma DeleteFrameStore(s: State, name: string)
    requires name in s.machines
    ensures var s' := UserNext(s, DeleteMachine(name)); s' == s.(machines := s'.machines)
  {
  }

  lemma DeleteKeepsWorker(s: State, name: string)
    requires MachineWorkerOk(s) && name in s.machines
    ensures MachineWorkerOk(UserNext(s, DeleteMachine(name)))
  {
    hide Held, Taken, StillListed, Agrees, UserNext, Idle, IsFree;
    var s' := UserNext(s, DeleteMachine(name));
    DeleteFrameStore(s, name);
    if !s.mw.MIdle? { DeleteFrame(s, name, s.mw.name); }
    forall n | n in s'.machines ensures n in s.machines && s'.machines[n].poolRef == s.machines[n].poolRef {
      DeleteFrame(s, name, n);
    }
  }

  lemma DeleteMachineKeeps(s: State, name: string)
    requires PoolInv(s) && name in s.machines
    ensures PoolInv(UserNext(s, DeleteMachine(name)))
  {
    hide MachinesOk, MachineWorkerOk, Exclusive;
    DeleteKeepsMachines(s, name);
    DeleteKeepsWorker(s, name);
    DeleteFrameStore(s, name);
  }

  lemma CrashKeeps(s: State)
    requires PoolInv(s) && !s.mw.MReleased?
    ensures PoolInv(CrashMachine(s))
  {
    hide MachinesOk;
    WorkerMoves(s, MIdle);
    SamePoolState(s.(mw := MIdle), CrashMachine(s));
  }

  // ------------------------------------------------------------------- machine controller

  lemma BeginWorker(s: State, name: string, owned: bool, cluster: string, hcName: string, provisioning: bool)
    requires MachinesOk(s) && s.mw.MIdle? && cluster != ""
    ensures MachineWorkerOk(s.(mw := BegunMachine(s, name, owned, cluster, hcName, provisioning)))
  {
    hide MachinesOk, HostPart, Valid, Unreferenced;
    if name in s.machines {
      MachineAt(s, name);
    }
  }

  lemma BeginKeeps(s: State, name: string, owned: bool, cluster: string, hcName: string, provisioning: bool)
    requires PoolInv(s) && s.mw.MIdle? && cluster != ""
    ensures PoolInv(s.(mw := BegunMachine(s, name, owned, cluster, hcName, provisioning)))
  {
    hide MachinesOk, MachineWorkerOk;
    var mw := BegunMachine(s, name, owned, cluster, hcName, provisioning);
    WorkerMoves(s, mw);
    BeginWorker(s, name, owned, cluster, hcName, provisioning);
  }

  lemma MachineAt(s: State, name: string)
    requires MachinesOk(s) && name in s.machines
    ensures MachineOk(s.pools, s.mw, name, s.machines[name])
  {
  }

  lemma PickMarkedKeeps(s: State, choice: Option<string>)
    requires PoolInv(s) && s.mw.MList1? && Picks(choice, FreeMarkedPools(s))
    ensures PoolInv(PickMarked(s, choice))
  {
    hide MachinesOk;
    WorkerMoves(s, PickMarked(s, choice).mw);
  }

  lemma PickAnyKeeps(s: State, choice: Option<string>)
    requires PoolInv(s) && s.mw.MList2? && Picks(choice, FreePools(s))
    ensures PoolInv(PickAny(s, choice))
  {
    hide MachinesOk;
    WorkerMoves(s, PickAny(s, choice).mw);
    MachineAt(s, s.mw.name);
  }

  /** Only the cluster name of the adopted pool changes. */
  lemma AdoptLabels(cur: HyperMachinePool, hmp: HyperMachinePool, cluster: string)
    requires IsFree(hmp) && IsFree(cur) && cluster != ""
    ensures var new_ := PatchPool(hmp, hmp.(labels := Adopted(hmp.labels, cluster)), cur);
      && new_.labels == cur.labels[ClusterName := cluster]
      && new_.status == cur.status && new_.address == cur.address
  {
    Same(MergeFrom(hmp.labels, Adopted(hmp.labels, cluster), cur.labels), cur.labels[ClusterName := cluster]);
  }

  lemma FreeIsUnreferenced(s: State, p: string)
    requires MachinesOk(s) && !s.mw.MReleased? && p in s.pools && IsFree(s.pools[p])
    ensures Unreferenced(s.machines, p)
  {
    forall n | n in s.machines ensures s.machines[n].poolRef != Some(p) {
      MachineAt(s, n);
    }
  }

  lemma AdoptKeeps(s: State)
    requires PoolInv(s) && s.mw.MAdopt? && s.mw.pool in s.pools
    ensures PoolInv(AdoptPatch(s))
  {
    hide HostPart, MergeFrom, Adopted;
    var w, s' := s.mw, AdoptPatch(s);
    AdoptLabels(s.pools[w.pool], w.hmp, w.cluster);
    FreeIsUnreferenced(s, w.pool);
    forall n | n in s'.machines ensures MachineOk(s'.pools, s'.mw, n, s'.machines[n]) {
      MachineAt(s, n);
    }
  }

  lemma AskKeeps(s: State)
    requires PoolInv(s) && s.mw.MProvision?
    ensures PoolInv(AskPriority(s))
  {
    hide MachinesOk, Held, StillListed, Unreferenced, Kept, Idle, NextPriority;
    WorkerMoves(s, AskPriority(s).mw);
    SamePoolState(s.(mw := s.mw.(asked := true)), AskPriority(s));
  }

  lemma FinishKeeps(s: State, ok: bool)
    requires PoolInv(s) && s.mw.MProvision?
    ensures PoolInv(FinishProvision(s, ok))
  {
    hide MachinesOk, HostPart, Taken;
    WorkerMoves(s, FinishProvision(s, ok).mw);
  }

  lemma UnreachableKeeps(s: State)
    requires PoolInv(s) && s.mw.MClean?
    ensures PoolInv(s.(mw := MAbandon(s.mw.name, s.mw.snap)))
  {
    hide MachinesOk;
    WorkerMoves(s, MAbandon(s.mw.name, s.mw.snap));
  }

  /** Only the cluster name and the control-plane mark of the released pool change. */
  lemma ReleaseLabels(cur: HyperMachinePool, hmp: HyperMachinePool)
    requires Taken(hmp) && At(hmp.labels, ClusterName) == At(cur.labels, ClusterName)
    ensures var new_ := PatchPool(hmp, hmp.(labels := Released(hmp.labels)), cur);
      && At(new_.labels, ClusterName) == Some("")
      && (forall k :: k != ClusterName && k != ControlPlane ==> At(new_.labels, k) == At(cur.labels, k))
      && new_.status == cur.status && new_.address == cur.address
  {
  }

  lemma ReleaseKeeps(s: State)
    requires PoolInv(s) && s.mw.MClean? && s.mw.pool in s.pools
    ensures PoolInv(ReleasePool(s))
  {
    hide HostPart, MergeFrom, Released;
    var w, s' := s.mw, ReleasePool(s);
    ReleaseLabels(s.pools[w.pool], w.hmp);
    forall n | n in s'.machines ensures MachineOk(s'.pools, s'.mw, n, s'.machines[n]) {
      MachineAt(s, n);
    }
  }

  // ------------------------------------------------------------------------ the last patch

  lemma EndOnlyOne(s: State, n: string)
    requires s.mw.MClose? || s.mw.MAbandon? || s.mw.MReleased?
    requires n in EndMachine(s).machines && n != s.mw.name
    ensures n in s.machines && EndMachine(s).machines[n] == s.machines[n]
  {
  }

  /** A patch of a machine that is as it was read yields the object in memory. */
  lemma EndWrites(s: State)
    requires MachineWorkerOk(s) && s.mw.MClose?
    ensures var ms := EndMachine(s).machines;
      s.mw.name in ms ==>
        s.mw.name in s.machines && s.mw.mem.finalizer &&
        ms[s.mw.name] == s.mw.mem.(deleting := s.machines[s.mw.name].deleting)
  {
    hide Held, Agrees, Unreferenced;
  }

  lemma EndRemoves(s: State)
    requires MachineWorkerOk(s) && (s.mw.MAbandon? || s.mw.MReleased?)
    ensures EndMachine(s).machines == s.machines - {s.mw.name}
  {
  }

  lemma EndKeepsMachines(s: State)
    requires PoolInv(s) && (s.mw.MClose? || s.mw.MAbandon? || s.mw.MReleased?)
    ensures MachinesOk(EndMachine(s)) && Exclusive(EndMachine(s).machines)
  {
    hide HostPart, Taken, EndMachine;
    var s' := EndMachine(s);
    EndFrame(s);
    if s.mw.MClose? { EndWrites(s); } else { EndRemoves(s); }
    forall n | n in s'.machines ensures MachineOk(s'.pools, s'.mw, n, s'.machines[n]) {
      if n != s.mw.name { EndOnlyOne(s, n); MachineAt(s, n); } else { MachineAt(s, n); }
    }
    forall n | n in s'.machines && n != s.mw.name ensures n in s.machines && s'.machines[n] == s.machines[n] {
      EndOnlyOne(s, n);
    }
  }

  lemma EndFrame(s: State)
    requires s.mw.MClose? || s.mw.MAbandon? || s.mw.MReleased?
    ensures EndMachine(s).pools == s.pools && EndMachine(s).mw == MIdle && EndMachine(s).pw == s.pw
  {
  }

  lemma EndKeeps(s: State)
    requires PoolInv(s) && (s.mw.MClose? || s.mw.MAbandon? || s.mw.MReleased?)
    ensures PoolInv(EndMachine(s))
  {
    hide MachinesOk, Exclusive;
    EndKeepsMachines(s);
    EndFrame(s);
  }

  // ------------------------------------------------------------ cluster and pool controllers

  lemma MarkLabels(cur: HyperMachinePool, hmp: HyperMachinePool)
    ensures var new_ := PatchPool(hmp, hmp.(labels := Marked(hmp.labels)), cur);
      && (forall k :: k != ControlPlane ==> At(new_.labels, k) == At(cur.labels, k))
      && new_.status == cur.status && Keeps(cur, new_)
  {
  }

  lemma MarkKeeps(s: State)
    requires PoolInv(s) && s.cw.CMarkPool? && s.cw.pool in s.pools
    ensures PoolInv(MarkPool(s))
  {
    hide MachinesOk, MachineWorkerOk, MergeFrom, Marked, HostPart;
    var w, s' := s.cw, MarkPool(s);
    MarkLabels(s.pools[w.pool], w.hmp);
    var new_ := s'.pools[w.pool];
    ChangeKeepsMachines(s, w.pool, new_);
    ChangeKeepsWorker(s, w.pool, new_);
    SamePoolState(s.(pools := s.pools[w.pool := new_]), s');
  }

  /** The pool controller's patch on a pool whose valid label is as it was read. */
  lemma CheckLabels(cur: HyperMachinePool, snap: HyperMachinePool, ssh: SshResult)
    requires At(cur.labels, PoolValid) == At(snap.labels, PoolValid)
    ensures Keeps(cur, PatchPool(snap, CheckedPool(snap, ssh), cur))
  {
  }

  lemma CheckKeeps(s: State, ssh: SshResult)
    requires PoolInv(s) && s.pw.PCheck? && s.pw.name in s.pools
    ensures PoolInv(CheckPool(s, ssh))
  {
    hide MachinesOk, MachineWorkerOk, PatchPool, CheckedPool;
    var w, s' := s.pw, CheckPool(s, ssh);
    CheckLabels(s.pools[w.name], w.snap, ssh);
    var new_ := s'.pools[w.name];
    ChangeKeepsMachines(s, w.name, new_);
    ChangeKeepsWorker(s, w.name, new_);
    SamePoolState(s.(pools := s.pools[w.name := new_]), s');
  }
}
