/** Where every taken pool has gone: it is referenced by a machine, in the hands of an adoption
    under way, or lost for a recorded cause. */
module Accounting {
  import opened Strings
  import opened Labels
  import opened Protocol
  import opened PoolSafety

  ghost predicate Referenced(ms: map<string, HyperMachine>, p: string) {
    exists n :: n in ms && ms[n].poolRef == Some(p)
  }

  /** A lost pool is taken, but neither referenced nor being adopted. */
  ghost predicate LostApart(s: State) {
    forall p :: p in s.lost ==>
      && p in s.pools && Taken(s.pools[p]) && Unreferenced(s.machines, p) && InFlight(s.mw) != Some(p)
      && (s.lost[p] != Preset ==> Valid(s.pools[p].labels))
  }

  ghost predicate TakenKnown(s: State) {
    forall p :: p in s.pools && Taken(s.pools[p]) ==>
      p in s.lost || Referenced(s.machines, p) || InFlight(s.mw) == Some(p)
  }

  ghost predicate AccountInv(s: State) {
    LostApart(s) && TakenKnown(s)
  }

  // ----------------------------------------------------------------- frames and helpers

  /** A step that moves neither pools nor references nor the adoption under way. */
  lemma AccountFrame(s: State, s': State)
    requires AccountInv(s)
    requires s'.pools == s.pools && s'.machines == s.machines && s'.lost == s.lost
    requires InFlight(s'.mw) == InFlight(s.mw)
    ensures AccountInv(s')
  {
    hide Taken, InFlight, Unreferenced, Referenced;
  }

  lemma ReferencedHere(ms: map<string, HyperMachine>, n: string, p: string)
    requires n in ms && ms[n].poolRef == Some(p)
    ensures Referenced(ms, p)
  {
  }

  /** Machines whose references stay the same. */
  lemma SameRefs(ms: map<string, HyperMachine>, ms': map<string, HyperMachine>, p: string)
    requires forall n :: n in ms' && ms'[n].poolRef.Some? ==> n in ms && ms[n].poolRef == ms'[n].poolRef
    requires forall n :: n in ms && ms[n].poolRef.Some? ==> n in ms' && ms'[n].poolRef == ms[n].poolRef
    ensures Referenced(ms', p) <==> Referenced(ms, p)
    ensures Unreferenced(ms', p) <==> Unreferenced(ms, p)
  {
  }

  lemma AccountSameRefs(s: State, s': State)
    requires AccountInv(s)
    requires s'.pools == s.pools && s'.lost == s.lost && s'.mw == s.mw
    requires forall n :: n in s'.machines && s'.machines[n].poolRef.Some? ==>
      n in s.machines && s.machines[n].poolRef == s'.machines[n].poolRef
    requires forall n :: n in s.machines && s.machines[n].poolRef.Some? ==>
      n in s'.machines && s'.machines[n].poolRef == s.machines[n].poolRef
    ensures AccountInv(s')
  {
    hide Taken, InFlight, Unreferenced, Referenced;
    forall p ensures Referenced(s'.machines, p) <==> Referenced(s.machines, p)
             ensures Unreferenced(s'.machines, p) <==> Unreferenced(s.machines, p)
    {
      SameRefs(s.machines, s'.machines, p);
    }
  }

  // ------------------------------------------------------------------------------- users

  lemma NewPoolAccounts(s: State, name: string, hmp: HyperMachinePool)
    requires PoolInv(s) && AccountInv(s) && name !in s.pools
    ensures AccountInv(AddPool(s, name, hmp))
  {
    hide Taken, Referenced, MachineOk, Valid;
    NoRefOutside(s, name);
  }

  lemma NoRefOutside(s: State, p: string)
    requires PoolInv(s) && p !in s.pools
    ensures Unreferenced(s.machines, p) && InFlight(s.mw) != Some(p)
  {
    forall n | n in s.machines ensures s.machines[n].poolRef != Some(p) { MachineAt(s, n); }
  }

  lemma NewMachineAccounts(s: State, name: string)
    requires AccountInv(s) && name !in s.machines
    ensures AccountInv(s.(machines := s.machines[name := FRESH_MACHINE]))
  {
    hide Taken, InFlight, AccountInv;
    AccountSameRefs(s, s.(machines := s.machines[name := FRESH_MACHINE]));
  }

  lemma DeleteMachineAccounts(s: State, name: string)
    requires PoolInv(s) && AccountInv(s) && name in s.machines
    ensures AccountInv(UserNext(s, DeleteMachine(name)))
  {
    hide Taken, InFlight, AccountInv, UserNext;
    var s' := UserNext(s, DeleteMachine(name));
    DeleteFrameStore(s, name);
    forall n | n in s'.machines ensures n in s.machines && s.machines[n].poolRef == s'.machines[n].poolRef {
      DeleteFrame(s, name, n);
    }
    forall n | n in s.machines && s.machines[n].poolRef.Some?
      ensures n in s'.machines && s'.machines[n].poolRef == s.machines[n].poolRef
    {
      MachineAt(s, n);
      DeleteFrame(s, name, n);
    }
    AccountSameRefs(s, s');
  }

  lemma CrashAccounts(s: State)
    requires PoolInv(s) && AccountInv(s)
    ensures AccountInv(CrashMachine(s))
  {
    hide Taken, Referenced, MachinesOk, Valid, HostPart, Kept;
    if InFlight(s.mw).Some? { InFlightHeld(s); }
  }

  lemma InFlightHeld(s: State)
    requires PoolInv(s) && InFlight(s.mw).Some?
    ensures Held(s.pools, InFlight(s.mw).value) && Unreferenced(s.machines, InFlight(s.mw).value)
  {
  }

  // ------------------------------------------------------------------- machine controller

  lemma AdoptAccounts(s: State)
    requires PoolInv(s) && AccountInv(s) && s.mw.MAdopt? && s.mw.pool in s.pools
    ensures AccountInv(AdoptPatch(s))
  {
    hide Referenced, MachinesOk, MergeFrom, Adopted, Unreferenced, PatchPool;
    AdoptLabels(s.pools[s.mw.pool], s.mw.hmp, s.mw.cluster);
  }

  lemma FinishAccounts(s: State, ok: bool)
    requires PoolInv(s) && AccountInv(s) && s.mw.MProvision?
    ensures AccountInv(FinishProvision(s, ok))
  {
    hide Taken, AccountInv, HostPart, MachinesOk, Valid;
    var w := s.mw;
    AccountFrame(s, FinishProvision(s, ok));
  }

  lemma ReleaseAccounts(s: State)
    requires PoolInv(s) && AccountInv(s) && s.mw.MClean? && s.mw.pool in s.pools
    ensures AccountInv(ReleasePool(s))
  {
    hide Referenced, MachinesOk, MergeFrom, Released, PatchPool;
    ReleaseLabels(s.pools[s.mw.pool], s.mw.hmp);
    MachineKept(s);
  }

  /** The references after the last patch of a reconcile that keeps its object. */
  lemma EndRefs(s: State, n: string)
    requires PoolInv(s) && s.mw.MClose?
    ensures var ms, w := EndMachine(s).machines, s.mw;
      && (n in ms ==> n in s.machines && ms[n].poolRef == if n == w.name then w.mem.poolRef else s.machines[n].poolRef)
      && (n in s.machines && n != w.name ==> n in ms)
      && (w.mem.poolRef.Some? ==> w.name in ms && w.name in s.machines && s.machines[w.name].poolRef == w.snap.poolRef)
      && (w.name in s.machines && w.snap.finalizer ==> s.machines[w.name].poolRef == w.snap.poolRef)
  {
    hide MachinesOk, Held, Agrees, Unreferenced;
    EndWrites(s);
    if n != s.mw.name && n in EndMachine(s).machines { EndOnlyOne(s, n); }
  }

  lemma EndMachineFrame(s: State)
    requires s.mw.MClose?
    ensures var s' := EndMachine(s);
      && s'.pools == s.pools && s'.mw == MIdle
      && s'.lost == if s.mw.snap.poolRef.Some? && s.mw.mem.poolRef != s.mw.snap.poolRef
                    then s.lost[s.mw.snap.poolRef.value := Superseded] else s.lost
  {
  }

  /** The object in memory has the reference of the stored one. */
  lemma EndSameAccounts(s: State)
    requires PoolInv(s) && AccountInv(s) && s.mw.MClose? && s.mw.mem.poolRef == s.mw.snap.poolRef
    ensures AccountInv(EndMachine(s))
  {
    hide Taken, EndMachine, AccountInv, MachineOk, HostPart;
    var s' := EndMachine(s);
    EndMachineFrame(s);
    if s.mw.name in s.machines { CloseUnfinalized(s); }
    forall n ensures
      && (n in s'.machines && s'.machines[n].poolRef.Some? ==>
            n in s.machines && s.machines[n].poolRef == s'.machines[n].poolRef)
      && (n in s.machines && s.machines[n].poolRef.Some? ==>
            n in s'.machines && s'.machines[n].poolRef == s.machines[n].poolRef)
    {
      EndRefs(s, n);
    }
    AccountSameRefs(s.(mw := MIdle), s') by { AccountFrame(s, s.(mw := MIdle)); }
  }

  lemma CloseUnfinalized(s: State)
    requires PoolInv(s) && s.mw.MClose? && s.mw.name in s.machines
    ensures s.machines[s.mw.name].poolRef == s.mw.snap.poolRef
  {
  }

  /** The adopted pool is referenced now; the one referenced before, if any, is lost. */
  lemma EndAdoptionAccounts(s: State)
    requires PoolInv(s) && AccountInv(s) && s.mw.MClose? && s.mw.mem.poolRef != s.mw.snap.poolRef
    ensures AccountInv(EndMachine(s))
  {
    hide Taken, EndMachine, MachineOk, HostPart, Valid, Agrees;
    var w, s' := s.mw, EndMachine(s);
    EndMachineFrame(s);
    InFlightHeld(s);
    EndRefs(s, w.name);
    MachineAt(s, w.name);
    if w.snap.poolRef.Some? { OldTaken(s); }
    forall p | p in s'.lost ensures Unreferenced(s'.machines, p) {
      forall n | n in s'.machines ensures s'.machines[n].poolRef != Some(p) { EndRefs(s, n); }
    }
    forall p | p in s'.pools && Taken(s'.pools[p]) ensures p in s'.lost || Referenced(s'.machines, p) {
      if InFlight(w) == Some(p) {
        ReferencedHere(s'.machines, w.name, p);
      } else if Referenced(s.machines, p) {
        var n :| n in s.machines && s.machines[n].poolRef == Some(p);
        EndRefs(s, n);
        if n != w.name { ReferencedHere(s'.machines, n, p); }
      }
    }
  }

  lemma OldTaken(s: State)
    requires PoolInv(s) && s.mw.MClose? && s.mw.snap.poolRef.Some? && s.mw.name in s.machines
    ensures s.mw.snap.poolRef.value in s.pools && Taken(s.pools[s.mw.snap.poolRef.value])
  {
    MachineAt(s, s.mw.name);
  }

  /** The machine is gone; its pool was released, or is lost because the node was out of reach. */
  lemma DeletionKeepsTaken(s: State)
    requires PoolInv(s) && AccountInv(s) && (s.mw.MAbandon? || s.mw.MReleased?)
    ensures TakenKnown(EndMachine(s))
  {
    hide EndMachine, MachinesOk, MachineWorkerOk, Exclusive, LostApart, Taken;
    var w, s' := s.mw, EndMachine(s);
    EndRemoves(s);
    EndDeletionFrame(s);
    DeletedTaken(s);
    forall p | p in s'.pools && Taken(s'.pools[p]) ensures p in s'.lost || Referenced(s'.machines, p) {
      if Referenced(s.machines, p) {
        var n :| n in s.machines && s.machines[n].poolRef == Some(p);
        if n != w.name { ReferencedHere(s'.machines, n, p); }
      }
    }
  }

  lemma EndDeletionAccounts(s: State)
    requires PoolInv(s) && AccountInv(s) && (s.mw.MAbandon? || s.mw.MReleased?)
    ensures AccountInv(EndMachine(s))
  {
    hide EndMachine, MachineOk, HostPart, Valid, Agrees, TakenKnown, Taken, MachineWorkerOk;
    DeletionKeepsTaken(s);
    EndRemoves(s);
    EndDeletionFrame(s);
    DeletedTaken(s);
    DeletedValid(s);
  }

  lemma DeletedValid(s: State)
    requires PoolInv(s) && (s.mw.MAbandon? || s.mw.MReleased?)
    ensures s.mw.snap.poolRef.Some? && s.mw.snap.poolRef.value in s.pools
    ensures Valid(s.pools[s.mw.snap.poolRef.value].labels)
  {
    MachineAt(s, s.mw.name);
  }

  lemma EndDeletionFrame(s: State)
    requires s.mw.MAbandon? || s.mw.MReleased?
    ensures var s' := EndMachine(s);
      && s'.pools == s.pools && s'.mw == MIdle
      && s'.lost == if s.mw.MAbandon? && s.mw.snap.poolRef.Some?
                    then s.lost[s.mw.snap.poolRef.value := Abandoned] else s.lost
  {
  }

  lemma DeletedTaken(s: State)
    requires PoolInv(s) && (s.mw.MAbandon? || s.mw.MReleased?)
    ensures s.mw.name in s.machines && s.mw.snap.poolRef.Some?
    ensures s.machines[s.mw.name].poolRef == s.mw.snap.poolRef && s.mw.snap.poolRef.value in s.pools
    ensures Taken(s.pools[s.mw.snap.poolRef.value]) == s.mw.MAbandon?
  {
    MachineAt(s, s.mw.name);
  }

  lemma EndAccounts(s: State)
    requires PoolInv(s) && AccountInv(s) && (s.mw.MClose? || s.mw.MAbandon? || s.mw.MReleased?)
    ensures AccountInv(EndMachine(s))
  {
    hide PoolInv, AccountInv, EndMachine;
    if !s.mw.MClose? { EndDeletionAccounts(s); }
    else if s.mw.mem.poolRef == s.mw.snap.poolRef { EndSameAccounts(s); }
    else { EndAdoptionAccounts(s); }
  }

  // ------------------------------------------------------------ cluster and pool controllers

  lemma MarkAccounts(s: State)
    requires AccountInv(s) && s.cw.CMarkPool? && s.cw.pool in s.pools
    ensures AccountInv(MarkPool(s))
  {
    hide Referenced, Unreferenced, MergeFrom, Marked, HostPart, PatchPool, InFlight;
    MarkLabels(s.pools[s.cw.pool], s.cw.hmp);
    TakenAt(s.pools[s.cw.pool]);
    TakenAt(MarkPool(s).pools[s.cw.pool]);
  }

  /** Initialising a pool frees it; any other check leaves its cluster name alone. */
  lemma CheckClusterName(cur: HyperMachinePool, snap: HyperMachinePool, ssh: SshResult)
    requires At(cur.labels, PoolValid) == At(snap.labels, PoolValid)
    requires PoolValid !in snap.labels ==> At(cur.labels, ClusterName) == At(snap.labels, ClusterName)
    ensures At(PatchPool(snap, CheckedPool(snap, ssh), cur).labels, ClusterName) ==
            if PoolValid in snap.labels then At(cur.labels, ClusterName) else Some("")
  {
  }

  lemma CheckAccounts(s: State, ssh: SshResult)
    requires PoolInv(s) && AccountInv(s) && s.pw.PCheck? && s.pw.name in s.pools
    ensures AccountInv(CheckPool(s, ssh))
  {
    hide Referenced, MachinesOk, PatchPool, CheckedPool, InFlight;
    var w, s' := s.pw, CheckPool(s, ssh);
    CheckClusterName(s.pools[w.name], w.snap, ssh);
    CheckLabels(s.pools[w.name], w.snap, ssh);
    TakenAt(s.pools[w.name]);
    TakenAt(s'.pools[w.name]);
  }

  // ---------------------------------------------------------------------------- counting

  function TakenPools(s: State): set<string> {
    set p | p in s.pools && Taken(s.pools[p])
  }

  function WithRef(ms: map<string, HyperMachine>): set<string> {
    set n | n in ms && ms[n].poolRef.Some?
  }

  function RefsOf(ms: map<string, HyperMachine>, ns: set<string>): set<string>
    requires ns <= WithRef(ms)
  {
    set n | n in ns :: ms[n].poolRef.value
  }

  function LostBy(s: State, cause: Cause): set<string> {
    set p | p in s.lost && s.lost[p] == cause
  }

  lemma {:induction false} AsManyRefs(ms: map<string, HyperMachine>, ns: set<string>)
    requires Exclusive(ms) && ns <= WithRef(ms)
    ensures |RefsOf(ms, ns)| == |ns|
    decreases ns
  {
    if ns == {} {
      assert RefsOf(ms, ns) == {};
    } else {
      var n :| n in ns;
      var rest := ns - {n};
      AsManyRefs(ms, rest);
      assert RefsOf(ms, ns) == RefsOf(ms, rest) + {ms[n].poolRef.value};
      assert ms[n].poolRef.value !in RefsOf(ms, rest);
    }
  }

  lemma Disjoint4(a: set<string>, b: set<string>, c: set<string>, d: set<string>)
    requires a !! b && (a + b) !! c && (a + b + c) !! d
    ensures |a + b + c + d| == |a| + |b| + |c| + |d|
  {
    assert |a + b| == |a| + |b|;
    assert |a + b + c| == |a + b| + |c|;
  }

  lemma LostByCause(s: State)
    ensures |s.lost.Keys| ==
            |LostBy(s, Superseded)| + |LostBy(s, Abandoned)| + |LostBy(s, Crashed)| + |LostBy(s, Preset)|
  {
    var a, b, c, d := LostBy(s, Superseded), LostBy(s, Abandoned), LostBy(s, Crashed), LostBy(s, Preset);
    LostUnion(s);
    Disjoint4(a, b, c, d);
  }

  lemma LostUnion(s: State)
    ensures s.lost.Keys == LostBy(s, Superseded) + LostBy(s, Abandoned) + LostBy(s, Crashed) + LostBy(s, Preset)
  {
    forall p | p in s.lost
      ensures p in LostBy(s, Superseded) + LostBy(s, Abandoned) + LostBy(s, Crashed) + LostBy(s, Preset)
    {
      match s.lost[p] {
        case Superseded => assert p in LostBy(s, Superseded);
        case Abandoned => assert p in LostBy(s, Abandoned);
        case Crashed => assert p in LostBy(s, Crashed);
        case Preset => assert p in LostBy(s, Preset);
      }
    }
  }

  /** With the machine worker idle, every taken pool is accounted for exactly once: the taken
      pools are as many as the machines with a reference plus the pools lost for each cause. */
  lemma Accounted(s: State)
    requires PoolInv(s) && AccountInv(s) && s.mw.MIdle?
    ensures |TakenPools(s)| == |WithRef(s.machines)|
      + |LostBy(s, Superseded)| + |LostBy(s, Abandoned)| + |LostBy(s, Crashed)| + |LostBy(s, Preset)|
  {
    hide MachinesOk, MachineWorkerOk, AccountInv, LostBy, TakenPools, RefsOf;
    var refs := RefsOf(s.machines, WithRef(s.machines));
    AsManyRefs(s.machines, WithRef(s.machines));
    LostByCause(s);
    TakenSplit(s);
    assert |refs + s.lost.Keys| == |refs| + |s.lost.Keys|;
  }

  lemma TakenSplit(s: State)
    requires PoolInv(s) && AccountInv(s) && s.mw.MIdle?
    ensures var refs := RefsOf(s.machines, WithRef(s.machines));
            TakenPools(s) == refs + s.lost.Keys && refs !! s.lost.Keys
  {
    hide MachinesOk, Taken, Exclusive;
    var refs := RefsOf(s.machines, WithRef(s.machines));
    RefsAreTaken(s);
    forall p | p in TakenPools(s) ensures p in refs + s.lost.Keys {
      if p !in s.lost {
        var n :| n in s.machines && s.machines[n].poolRef == Some(p);
        assert n in WithRef(s.machines);
      }
    }
  }

  lemma RefsAreTaken(s: State)
    requires PoolInv(s) && s.mw.MIdle?
    ensures forall n :: n in WithRef(s.machines) ==>
      s.machines[n].poolRef.value in s.pools && Taken(s.pools[s.machines[n].poolRef.value])
  {
    forall n | n in WithRef(s.machines)
      ensures s.machines[n].poolRef.value in s.pools && Taken(s.pools[s.machines[n].poolRef.value])
    {
      MachineAt(s, n);
    }
  }

  // ------------------------------------------------------------------- without failures

  /** A provisioning that fails, a node out of reach on deletion, a crash, or a pool created
      with a cluster name. */
  predicate Failure(e: Event) {
    match e
    case User(NewPool(_, hmp)) => Taken(hmp)
    case Machine(m) => m.MUnreachable? || m.MCrash? || m == MFinish(false)
    case _ => false
  }

  /** No pool is lost, and only ready machines reference one. */
  ghost predicate Clean(s: State) {
    && s.lost == map[]
    && (forall n :: n in s.machines && s.machines[n].poolRef.Some? ==> s.machines[n].ready)
    && !s.mw.MAbandon?
    && (s.mw.MList1? || s.mw.MList2? || s.mw.MAdopt? || s.mw.MProvision? ==> s.mw.snap.poolRef.None?)
    && (s.mw.MClose? ==>
          && (s.mw.mem.poolRef.Some? ==> s.mw.mem.ready)
          && (s.mw.mem.poolRef != s.mw.snap.poolRef ==> s.mw.snap.poolRef.None?))
  }

  lemma EndStaysClean(s: State)
    requires PoolInv(s) && Clean(s) && (s.mw.MClose? || s.mw.MReleased?)
    ensures Clean(EndMachine(s))
  {
    hide MachinesOk, EndMachine, MachineOk, Held, Agrees, HostPart, Unreferenced;
    var s' := EndMachine(s);
    EndMachineKeepsLost(s);
    if s.mw.MReleased? { EndRemoves(s); } else { EndWrites(s); }
    forall n | n in s'.machines && s'.machines[n].poolRef.Some? ensures s'.machines[n].ready {
      if n != s.mw.name { EndOnlyOne(s, n); }
    }
  }

  lemma EndMachineKeepsLost(s: State)
    requires s.mw.MClose? || s.mw.MReleased?
    requires s.mw.MClose? && s.mw.snap.poolRef.Some? ==> s.mw.mem.poolRef == s.mw.snap.poolRef
    ensures EndMachine(s).lost == s.lost && EndMachine(s).mw == MIdle
  {
  }

  lemma DeleteStaysClean(s: State, name: string)
    requires Clean(s) && name in s.machines
    ensures Clean(UserNext(s, DeleteMachine(name)))
  {
    hide UserNext;
    DeleteFrameStore(s, name);
    forall n | n in UserNext(s, DeleteMachine(name)).machines
      ensures n in s.machines && CleanKept(s, name, n)
    {
      DeleteFrame(s, name, n);
    }
  }

  predicate CleanKept(s: State, name: string, n: string)
    requires name in s.machines && n in s.machines
  {
    n in UserNext(s, DeleteMachine(name)).machines ==>
      var m := UserNext(s, DeleteMachine(name)).machines[n];
      m.poolRef == s.machines[n].poolRef && m.ready == s.machines[n].ready
  }

  lemma BeginStaysClean(s: State, name: string, owned: bool, cluster: string, hcName: string, provisioning: bool)
    requires Clean(s) && s.mw.MIdle?
    ensures Clean(s.(mw := BegunMachine(s, name, owned, cluster, hcName, provisioning)))
  {
  }

  lemma PickMarkedStaysClean(s: State, choice: Option<string>)
    requires Clean(s) && s.mw.MList1? && Picks(choice, FreeMarkedPools(s))
    ensures Clean(PickMarked(s, choice))
  {
    hide Picks, FreeMarkedPools;
  }

  lemma PickAnyStaysClean(s: State, choice: Option<string>)
    requires Clean(s) && s.mw.MList2? && Picks(choice, FreePools(s))
    ensures Clean(PickAny(s, choice))
  {
    hide Picks, FreePools;
  }

  lemma PatchStaysClean(s: State, e: MachineEvent)
    requires Clean(s) && MachineCan(s, e) && (e.MAdoptPatch? || e.MRelease?)
    ensures Clean(MachineNext(s, e))
  {
    hide PatchPool, Adopted, Released;
  }

  lemma AskStaysClean(s: State)
    requires Clean(s) && s.mw.MProvision?
    ensures Clean(AskPriority(s))
  {
    hide NextPriority;
  }

  lemma FinishStaysClean(s: State)
    requires Clean(s) && s.mw.MProvision?
    ensures Clean(FinishProvision(s, true))
  {
    hide HostPart;
  }

  lemma MachineStaysClean(s: State, e: MachineEvent)
    requires PoolInv(s) && Clean(s) && MachineCan(s, e) && !Failure(Machine(e))
    ensures Clean(MachineNext(s, e))
  {
    hide PoolInv, Clean, EndMachine, BegunMachine, AskPriority, FinishProvision;
    match e
    case MBegin(name, owned, cluster, hcName, provisioning) =>
      BeginStaysClean(s, name, owned, cluster, hcName, provisioning);
    case MPick1(choice) => PickMarkedStaysClean(s, choice);
    case MPick2(choice) => PickAnyStaysClean(s, choice);
    case MAdoptPatch => PatchStaysClean(s, e);
    case MAskPriority => AskStaysClean(s);
    case MFinish(ok) => FinishStaysClean(s);
    case MRelease => PatchStaysClean(s, e);
    case MEnd => NotAbandoning(s); EndStaysClean(s);
  }

  lemma NotAbandoning(s: State)
    requires Clean(s)
    ensures !s.mw.MAbandon?
  {
  }

  lemma UserStaysClean(s: State, e: UserEvent)
    requires Clean(s) && UserCan(s, e) && !Failure(User(e))
    ensures Clean(UserNext(s, e))
  {
    if e.DeleteMachine? {
      DeleteStaysClean(s, e.name);
    } else {
      hide Taken, PutCluster;
    }
  }

  /** Steps that touch neither machines nor the machine worker. */
  lemma CleanFrame(s: State, s': State)
    requires Clean(s) && s'.machines == s.machines && s'.mw == s.mw && s'.lost == map[]
    ensures Clean(s')
  {
  }

  lemma StepStaysClean(s: State, e: Event)
    requires PoolInv(s) && Clean(s) && Enabled(s, e) && !Failure(e)
    ensures Clean(Next(s, e))
  {
    hide PoolInv, UserNext, MachineNext, ClusterNext, PoolNext, IPNext, Clean;
    match e
    case User(u) => UserStaysClean(s, u);
    case Machine(m) => MachineStaysClean(s, m);
    case Cluster(c) => ClusterFrame(s, c); NothingLost(s); CleanFrame(s, Next(s, e));
    case Pool(p) => PoolFrame(s, p); NothingLost(s); CleanFrame(s, Next(s, e));
    case IP(i) => IPFrame(s, i); NothingLost(s); CleanFrame(s, Next(s, e));
  }

  lemma NothingLost(s: State)
    requires Clean(s)
    ensures s.lost == map[]
  {
  }
}
