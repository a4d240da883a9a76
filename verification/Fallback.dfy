/** The fallback endpoint. A cluster that finds no IP takes the address of a machine pool and
    marks the pool, so that the first machine provisioned afterwards gets it; this tells exactly
    when that works. */
module Fallback {
  import opened Strings
  import opened Labels
  import opened Protocol
  import opened PoolSafety
  import opened Accounting
  import opened Runs
  import opened Scenes
  import opened Guarantees
  import C = ClusterSafety
  import L = Lifecycle

  /** A pool that is free, or comes to be so without being adopted first: by its first check, by
      a check that finds its node within reach, or by the release of it that is under way and
      leaves the mark, having read none. */
  predicate MayBeFree(mw: MachineWorker, q: string, hmp: HyperMachinePool) {
    || PoolValid !in hmp.labels
    || (At(hmp.labels, ClusterName) == Some("") && (Valid(hmp.labels) || !CountsAsValid(hmp.labels)))
    || (mw.MClean? && mw.pool == q && ControlPlane !in mw.hmp.labels)
  }

  /** A marked pool that the machine controller may list. */
  predicate Contends(mw: MachineWorker, q: string, hmp: HyperMachinePool) {
    IsMarked(hmp) && MayBeFree(mw, q, hmp)
  }

  ghost predicate NoRival(s: State, p: string) {
    forall q :: q in s.pools && q != p ==> !Contends(s.mw, q, s.pools[q])
  }

  ghost predicate OnlyMark(s: State, p: string) {
    p in s.pools && IsFree(s.pools[p]) && IsMarked(s.pools[p]) && NoRival(s, p)
  }

  /** The machine controller has already looked for a marked pool in vain, or chosen another. */
  predicate TooLate(mw: MachineWorker, p: string) {
    mw.MList2? || (mw.MAdopt? && mw.pool != p)
  }

  /** Neither another mark nor an adoption. */
  predicate Calm(e: Event) {
    match e
    case User(u) => !u.NewPool? || !IsMarked(u.hmp)
    case Machine(m) => !m.MAdoptPatch?
    case Cluster(c) => !c.CMark?
    case _ => true
  }

  predicate AllCalm(es: seq<Event>) {
    forall k :: 0 <= k < |es| ==> Calm(es[k])
  }

  // ----------------------------------------------------------------------------- every step

  lemma UserKeepsMark(s: State, u: UserEvent, p: string)
    requires OnlyMark(s, p) && UserCan(s, u) && Calm(User(u))
    ensures OnlyMark(UserNext(s, u), p) && UserNext(s, u).mw == s.mw
  {
    hide PutMachine, PutCluster, Taken, IsFree, IsMarked, MayBeFree;
  }

  lemma ReleaseUnmarks(cur: HyperMachinePool, hmp: HyperMachinePool)
    requires !IsMarked(cur) || ControlPlane in hmp.labels
    ensures !IsMarked(PatchPool(hmp, hmp.(labels := Released(hmp.labels)), cur))
  {
  }

  lemma ReleaseKeepsMark(s: State, p: string)
    requires PoolInv(s) && OnlyMark(s, p) && s.mw.MClean? && s.mw.pool in s.pools
    ensures OnlyMark(ReleasePool(s), p)
  {
    hide MachinesOk, Kept, PatchPool, Released, IsMarked, Valid, CountsAsValid;
    assert s.mw.pool != p;
    ReleaseUnmarks(s.pools[s.mw.pool], s.mw.hmp);
  }

  /** The worker moves on, and reads a pool it is to release as it is. */
  lemma MoveKeepsMark(s: State, s': State, p: string)
    requires OnlyMark(s, p) && s'.pools == s.pools
    requires s'.mw.MClean? ==> s'.mw == s.mw || (s'.mw.pool in s.pools && s'.mw.hmp == s.pools[s'.mw.pool])
    ensures OnlyMark(s', p)
  {
    hide Valid, CountsAsValid, IsFree;
    forall q | q in s'.pools && q != p ensures !Contends(s'.mw, q, s'.pools[q]) {
      assert !Contends(s.mw, q, s.pools[q]);
    }
  }

  lemma MachineReads(s: State, m: MachineEvent)
    requires MachineCan(s, m) && !m.MRelease?
    ensures var mw := MachineNext(s, m).mw;
      mw.MClean? ==> mw.pool in s.pools && mw.hmp == s.pools[mw.pool]
  {
    hide EndMachine, PatchPool, Picks, KnownOS, InFlight;
  }

  lemma MachineKeepsMark(s: State, m: MachineEvent, p: string)
    requires PoolInv(s) && OnlyMark(s, p) && !TooLate(s.mw, p) && MachineCan(s, m) && !m.MAdoptPatch?
    ensures OnlyMark(MachineNext(s, m), p) && !TooLate(MachineNext(s, m).mw, p)
  {
    hide PoolInv, OnlyMark, FreeMarkedPools, ReleasePool, EndMachine, AskPriority, KnownOS;
    if m.MRelease? {
      ReleaseKeepsMark(s, p);
      ReleaseWorker(s);
    } else {
      L.MachinePools(s, m);
      MachineReads(s, m);
      MoveKeepsMark(s, MachineNext(s, m), p);
      if m.MPick1? { OnlyOneListed(s, p); }
    }
  }

  lemma ReleaseWorker(s: State)
    requires s.mw.MClean? && s.mw.pool in s.pools
    ensures ReleasePool(s).mw.MReleased?
  {
  }

  lemma OnlyOneListed(s: State, p: string)
    requires OnlyMark(s, p)
    ensures FreeMarkedPools(s) == {p}
  {
  }

  lemma CheckLeavesMark(cur: HyperMachinePool, snap: HyperMachinePool, ssh: SshResult)
    ensures IsMarked(PatchPool(snap, CheckedPool(snap, ssh), cur)) <==> IsMarked(cur)
  {
    hide ParseBool, CountsAsValid;
  }

  /** A check does not bring a pool nearer to being free than it was. */
  lemma CheckKeepsApart(mw: MachineWorker, q: string, cur: HyperMachinePool, snap: HyperMachinePool, ssh: SshResult)
    requires At(cur.labels, PoolValid) == At(snap.labels, PoolValid) && !MayBeFree(mw, q, cur)
    ensures !MayBeFree(mw, q, PatchPool(snap, CheckedPool(snap, ssh), cur))
  {
    hide PatchStatus;
    var new_ := PatchPool(snap, CheckedPool(snap, ssh), cur);
    assert At(new_.labels, ClusterName) == At(cur.labels, ClusterName);
    assert At(new_.labels, PoolValid) ==
           if CountsAsValid(cur.labels) then At(cur.labels, PoolValid) else Some(if ssh.Up? then "true" else "false");
  }

  lemma CheckKeepsMark(s: State, ssh: SshResult, p: string)
    requires PoolInv(s) && OnlyMark(s, p) && s.pw.PCheck? && s.pw.name in s.pools
    ensures OnlyMark(CheckPool(s, ssh), p)
  {
    hide MachinesOk, MachineWorkerOk, PatchPool, CheckedPool, IsMarked, MayBeFree;
    var q := s.pw.name;
    CheckLabels(s.pools[q], s.pw.snap, ssh);
    CheckLeavesMark(s.pools[q], s.pw.snap, ssh);
    if q != p && IsMarked(s.pools[q]) { CheckKeepsApart(s.mw, q, s.pools[q], s.pw.snap, ssh); }
  }

  lemma StepKeepsMark(s: State, e: Event, p: string)
    requires Inv(s) && OnlyMark(s, p) && !TooLate(s.mw, p) && Enabled(s, e) && Calm(e)
    ensures OnlyMark(Next(s, e), p) && !TooLate(Next(s, e).mw, p)
  {
    hide C.ClusterInv, AccountInv, PoolInv, UserNext, MachineNext, ClusterNext, PoolNext, IPNext, UserCan, MachineCan,
         ClusterCan, IPCan, IsFree, IsMarked, MayBeFree, CheckPool;
    match e
    case User(u) => UserKeepsMark(s, u, p);
    case Machine(m) => MachineKeepsMark(s, m, p);
    case Cluster(c) => ClusterFrame(s, c);
    case Pool(q) =>
      PoolFrame(s, q);
      if q.PPatch? {
        L.PoolPools(s, q);
        CheckKeepsMark(s, q.ssh, p);
      }
    case IP(i) => IPFrame(s, i);
  }

  lemma {:induction false} RunKeepsMark(s: State, es: seq<Event>, p: string)
    requires Inv(s) && OnlyMark(s, p) && !TooLate(s.mw, p) && IsRun(s, es) && Uncut(s, es) && AllCalm(es)
    ensures OnlyMark(End(s, es), p) && !TooLate(End(s, es).mw, p)
    decreases |es|
  {
    hide Inv, Next, Enabled, CutsRelease, OnlyMark, Calm, TooLate;
    if es != [] {
      assert Calm(es[0]);
      StepKeepsMark(s, es[0], p);
      StepKeeps(s, es[0]);
      RunKeepsMark(Next(s, es[0]), es[1..], p);
    }
  }

  // ---------------------------------------------------------- runs that give another pool

  /** On some calm run the next adoption is not of `p`. */
  ghost predicate Misses(s: State, p: string) {
    exists es :: IsRun(s, es) && Uncut(s, es) && AllCalm(es) && End(s, es).mw.MAdopt? && End(s, es).mw.pool != p
  }

  const FREE_LABELS: Labels := map[PoolValid := "true", ClusterName := ""]
  const FREE_POOL := HyperMachinePool(FREE_LABELS, "", PoolStatus("", "", "", "", ""))

  lemma MissesAhead(s: State, p: string)
    requires p in s.pools && TooLate(s.mw, p)
    ensures Misses(s, p)
  {
    if s.mw.MAdopt? {
      assert IsRun(s, []) && End(s, []) == s;
    } else {
      var q := Fresh(s.pools.Keys);
      var a, b := User(NewPool(q, FREE_POOL)), Machine(MPick2(Some(q)));
      assert q in FreePools(Next(s, a));
      Two(s, a, b);
      UncutWithoutCrash(s, [a, b]);
    }
  }

  function Settling(mw: MachineWorker): seq<Event> {
    if mw.MIdle? then [] else if mw.MClose? || mw.MAbandon? || mw.MReleased? then [Machine(MEnd)] else [Machine(MCrash)]
  }

  lemma Settles(s: State)
    ensures IsRun(s, Settling(s.mw)) && Uncut(s, Settling(s.mw)) && AllCalm(Settling(s.mw))
    ensures End(s, Settling(s.mw)).mw.MIdle? && End(s, Settling(s.mw)).pools == s.pools
  {
    hide PutMachine, CloseMachine;
    if !s.mw.MIdle? { One(s, Settling(s.mw)[0]); }
  }

  function Newcomers(q: string, n: string, c: string): seq<Event> {
    [User(NewPool(q, FREE_POOL)), User(NewMachine(n))] + [User(NewCluster(c, map[]))]
  }

  function Grown(s: State, q: string, n: string, c: string): State {
    s.(pools := s.pools[q := FREE_POOL], machines := s.machines[n := FRESH_MACHINE],
       clusters := s.clusters[c := FreshCluster(map[])])
  }

  lemma Grows(s: State, q: string, n: string, c: string)
    requires q !in s.pools && n !in s.machines && c !in s.clusters
    ensures IsRun(s, Newcomers(q, n, c)) && End(s, Newcomers(q, n, c)) == Grown(s, q, n, c)
  {
    Two(s, User(NewPool(q, FREE_POOL)), User(NewMachine(n)));
    Then(s, [User(NewPool(q, FREE_POOL)), User(NewMachine(n))], User(NewCluster(c, map[])));
  }

  lemma NewcomerWaits(s: State, q: string, n: string, c: string, r: string)
    requires s.mw.MIdle? && q !in s.pools && c != ""
    requires if FreeMarkedPools(s) == {} then r == q else r in FreeMarkedPools(s)
    ensures var s' := Grown(s, q, n, c).(machines := s.machines[n := WAITING]); Waits(s', n, r, c)
  {
    hide IsFree, IsMarked;
    var s' := Grown(s, q, n, c).(machines := s.machines[n := WAITING]);
    assert IsFree(FREE_POOL) && !IsMarked(FREE_POOL) by { FreePool(); }
    assert q in FreePools(s');
    assert FreeMarkedPools(s') == FreeMarkedPools(s);
  }

  lemma FreePool()
    ensures IsFree(FREE_POOL) && !IsMarked(FREE_POOL)
  {
  }

  lemma Another(ps: set<string>, p: string) returns (r: string)
    requires ps != {} && ps != {p}
    ensures r in ps && r != p
  {
    assert ps <= {p} ==> ps == if p in ps then {p} else {};
    r :| r in ps && r !in {p};
  }

  lemma AdoptsAnother(s: State, p: string) returns (es: seq<Event>)
    requires s.mw.MIdle? && p in s.pools && FreeMarkedPools(s) != {p}
    ensures IsRun(s, es) && Uncut(s, es) && AllCalm(es) && End(s, es).mw.MAdopt? && End(s, es).mw.pool != p
  {
    hide IsRun, End, Uncut, FreePools, FreeMarkedPools, Waits, Finalising, Newcomers, Listing, AllCalm, FREE_POOL;
    var q := Fresh(s.pools.Keys);
    var n := Fresh(s.machines.Keys);
    var c := Fresh(s.clusters.Keys);
    var r := q;
    if FreeMarkedPools(s) != {} { r := Another(FreeMarkedPools(s), p); }
    var s2 := Grown(s, q, n, c);
    Grows(s, q, n, c);
    Finalised(s2, n, c);
    var s3 := s2.(machines := s2.machines[n := WAITING]);
    NewcomerWaits(s, q, n, c, r);
    assert s3 == s2.(machines := s.machines[n := WAITING]);
    Lists(s3, n, r, c);
    Join(s, Newcomers(q, n, c), Finalising(n, c));
    Join(s, Newcomers(q, n, c) + Finalising(n, c), Listing(s3, n, r, c));
    es := Newcomers(q, n, c) + Finalising(n, c) + Listing(s3, n, r, c);
    LaterCalm(s3, q, n, c, r);
    UncutWithoutCrash(s, es);
  }

  /** When the pools the first list yields are not `p` alone, another pool may be the next to be
      adopted. */
  lemma MissesOpen(s: State, p: string)
    requires p in s.pools && FreeMarkedPools(s) != {p}
    ensures Misses(s, p)
  {
    hide IsRun, End, Uncut, FreeMarkedPools, AllCalm, Settling;
    Settles(s);
    SameFree(s, End(s, Settling(s.mw)));
    var es := AdoptsAnother(End(s, Settling(s.mw)), p);
    MissesLater(s, Settling(s.mw), es, p);
  }

  lemma MissesLater(s: State, a: seq<Event>, b: seq<Event>, p: string)
    requires IsRun(s, a) && Uncut(s, a) && AllCalm(a)
    requires IsRun(End(s, a), b) && Uncut(End(s, a), b) && AllCalm(b)
    requires End(End(s, a), b).mw.MAdopt? && End(End(s, a), b).mw.pool != p
    ensures Misses(s, p)
  {
    hide IsRun, End, Uncut, Calm;
    Join(s, a, b);
    assert AllCalm(a + b);
  }

  /** A run that leads to a free pool with the mark. */
  ghost predicate TurnsUp(s: State, q: string, es: seq<Event>) {
    && IsRun(s, es) && Uncut(s, es) && AllCalm(es) && q in FreeMarkedPools(End(s, es))
    && s.pools.Keys <= End(s, es).pools.Keys
  }

  const UP := Up("", "", "", "")

  function Checking(q: string): seq<Event> {
    [Pool(PBegin(q)), Pool(PPatch(UP))]
  }

  lemma CheckFrees(hmp: HyperMachinePool)
    requires IsMarked(hmp)
    requires Checkable(hmp)
    ensures var new_ := PatchPool(hmp, CheckedPool(hmp, UP), hmp); IsFree(new_) && IsMarked(new_)
  {
    hide PatchStatus;
    CheckLeavesMark(hmp, hmp, UP);
    MergeUnchanged(hmp.labels, Checked(hmp.labels, true));
  }

  predicate Checkable(hmp: HyperMachinePool) {
    PoolValid !in hmp.labels || (At(hmp.labels, ClusterName) == Some("") && !CountsAsValid(hmp.labels))
  }

  lemma ChecksIdle(s: State, q: string)
    requires s.pw.PIdle? && q in s.pools && IsMarked(s.pools[q]) && Checkable(s.pools[q])
    ensures TurnsUp(s, q, Checking(q))
  {
    hide PatchPool, CheckedPool, IsFree, IsMarked, Checkable;
    CheckFrees(s.pools[q]);
    Two(s, Pool(PBegin(q)), Pool(PPatch(UP)));
    UncutWithoutCrash(s, Checking(q));
  }

  lemma TurnsUpByCheck(s: State, q: string) returns (es: seq<Event>)
    requires q in s.pools && IsMarked(s.pools[q]) && Checkable(s.pools[q])
    ensures TurnsUp(s, q, es)
  {
    hide IsMarked, Checkable, IsRun, End, Uncut, FreeMarkedPools;
    es := Checking(q);
    if s.pw.PIdle? {
      ChecksIdle(s, q);
    } else {
      var a := [Pool(PCrash)];
      One(s, Pool(PCrash));
      UncutWithoutCrash(s, a);
      ChecksIdle(s.(pw := PIdle), q);
      Join(s, a, es);
      assert AllCalm(a + es);
      es := a + es;
    }
  }

  lemma ReleaseFrees(cur: HyperMachinePool, hmp: HyperMachinePool)
    requires Taken(hmp) && At(hmp.labels, ClusterName) == At(cur.labels, ClusterName) && ControlPlane !in hmp.labels
    requires IsMarked(cur) && Valid(cur.labels)
    ensures var new_ := PatchPool(hmp, hmp.(labels := Released(hmp.labels)), cur); IsFree(new_) && IsMarked(new_)
  {
  }

  lemma TurnsUpByRelease(s: State, q: string)
    requires PoolInv(s) && q in s.pools && IsMarked(s.pools[q])
    requires s.mw.MClean? && s.mw.pool == q && ControlPlane !in s.mw.hmp.labels
    ensures TurnsUp(s, q, [Machine(MRelease)])
  {
    hide PatchPool, IsFree, IsMarked, Released, MachinesOk, Exclusive;
    MachineAt(s, s.mw.name);
    ReleaseFrees(s.pools[q], s.mw.hmp);
    One(s, Machine(MRelease));
    UncutWithoutCrash(s, [Machine(MRelease)]);
  }

  lemma RivalTurnsUp(s: State, q: string) returns (es: seq<Event>)
    requires PoolInv(s) && q in s.pools && Contends(s.mw, q, s.pools[q])
    ensures TurnsUp(s, q, es)
  {
    hide PoolInv, IsMarked, IsRun, End, Uncut, TurnsUp;
    if s.mw.MClean? && s.mw.pool == q && ControlPlane !in s.mw.hmp.labels {
      es := [Machine(MRelease)];
      TurnsUpByRelease(s, q);
    } else if PoolValid in s.pools[q].labels && Valid(s.pools[q].labels) {
      es := [];
      TurnsUpNow(s, q);
    } else {
      es := TurnsUpByCheck(s, q);
    }
  }

  lemma TurnsUpNow(s: State, q: string)
    requires q in s.pools && IsFree(s.pools[q]) && IsMarked(s.pools[q])
    ensures TurnsUp(s, q, [])
  {
    assert IsRun(s, []) && Uncut(s, []) && End(s, []) == s;
  }

  lemma MissesRival(s: State, p: string, q: string)
    requires PoolInv(s) && p in s.pools && q in s.pools && q != p && Contends(s.mw, q, s.pools[q])
    ensures Misses(s, p)
  {
    hide PoolInv, IsRun, End, Uncut, AllCalm, FreeMarkedPools, Contends;
    var a := RivalTurnsUp(s, q);
    MissesOpen(End(s, a), p);
    var s1 := End(s, a);
    var b :| IsRun(s1, b) && Uncut(s1, b) && AllCalm(b) && End(s1, b).mw.MAdopt? && End(s1, b).mw.pool != p;
    MissesLater(s, a, b, p);
  }

  lemma LaterCalm(s: State, q: string, n: string, c: string, r: string)
    ensures var es := Newcomers(q, n, c) + Finalising(n, c) + Listing(s, n, r, c);
      AllCalm(es) && forall k :: 0 <= k < |es| ==> es[k] != Machine(MCrash) && es[k] != Cluster(CCrash)
  {
    hide FreeMarkedPools;
  }

  // ------------------------------------------------------------------------- the guarantee

  /** On every calm run the next adoption is of `p`. */
  ghost predicate FirstGets(s: State, p: string) {
    forall es :: IsRun(s, es) && Uncut(s, es) && AllCalm(es) && End(s, es).mw.MAdopt? ==> End(s, es).mw.pool == p
  }

  /** A cluster has just taken the address of the pool `p`. The first machine provisioned from
      then on gets `p` on every run if and only if the pool is free and has the mark, the machine
      controller is not past its search for a marked pool, and no other marked pool is free or
      may become free with its mark. */
  lemma FirstMachineGets(s: State, p: string)
    requires Inv(s) && p in s.pools
    ensures FirstGets(s, p) <==> IsFree(s.pools[p]) && IsMarked(s.pools[p]) && !TooLate(s.mw, p) && NoRival(s, p)
  {
    hide Inv, IsRun, End, Uncut, AllCalm, IsFree, IsMarked, Contends;
    if !NoRival(s, p) {
      var q :| q in s.pools && q != p && Contends(s.mw, q, s.pools[q]);
      InvPools(s);
      MissesRival(s, p, q);
    } else if !IsFree(s.pools[p]) || !IsMarked(s.pools[p]) {
      assert p !in FreeMarkedPools(s);
      MissesOpen(s, p);
    } else if TooLate(s.mw, p) {
      MissesAhead(s, p);
    } else {
      forall es | IsRun(s, es) && Uncut(s, es) && AllCalm(es) && End(s, es).mw.MAdopt? ensures End(s, es).mw.pool == p {
        RunKeepsMark(s, es, p);
      }
    }
  }

  lemma InvPools(s: State)
    requires Inv(s)
    ensures PoolInv(s)
  {
  }

  lemma MarkSets(cur: HyperMachinePool, hmp: HyperMachinePool)
    ensures IsMarked(PatchPool(hmp, hmp.(labels := Marked(hmp.labels)), cur)) <==> (IsMarked(hmp) ==> IsMarked(cur))
  {
  }

  lemma SameRivals(s: State, s': State, p: string)
    requires p in s.pools && s'.mw == s.mw && s'.pools.Keys == s.pools.Keys
    requires forall q :: q in s.pools && q != p ==> s'.pools[q] == s.pools[q]
    ensures NoRival(s', p) <==> NoRival(s, p)
  {
    hide Contends;
  }

  /** The same, told at the patch that marks the pool, which may have been in use as it was
      listed or adopted since. The mark fails to reach the pool exactly when it was there as the
      pools were listed and a release has taken it off since. */
  lemma MarkReachesFirst(s: State)
    requires Inv(s) && s.cw.CMarkPool? && s.cw.pool in s.pools
    ensures var p := s.cw.pool;
      FirstGets(MarkPool(s), p) <==>
        IsFree(s.pools[p]) && (IsMarked(s.cw.hmp) ==> IsMarked(s.pools[p])) && !TooLate(s.mw, p) && NoRival(s, p)
  {
    hide Inv, FirstGets, IsMarked, PatchPool, Marked, HostPart, IsFree, Contends, NoRival;
    var p, s' := s.cw.pool, MarkPool(s);
    SameRivals(s, s', p);
    assert s'.pools[p] == PatchPool(s.cw.hmp, s.cw.hmp.(labels := Marked(s.cw.hmp.labels)), s.pools[p]);
    MarkSets(s.pools[p], s.cw.hmp);
    StepKeeps(s, Cluster(CMark));
    L.MarkFreesNone(s);
    FreeIff(s, p);
    FreeIff(s', p);
    FirstMachineGets(s', p);
  }

  lemma FreeIff(s: State, p: string)
    requires p in s.pools
    ensures p in FreePools(s) <==> IsFree(s.pools[p])
  {
  }

  // ---------------------------------------------------------------------- the same address

  predicate SameAddress(s: State, s': State, p: string) {
    p in s.pools ==> p in s'.pools && s'.pools[p].address == s.pools[p].address
  }

  lemma UserKeepsAddress(s: State, u: UserEvent, p: string)
    requires UserCan(s, u)
    ensures SameAddress(s, UserNext(s, u), p)
  {
    hide PutMachine, PutCluster, Taken;
  }

  lemma MachineKeepsAddress(s: State, m: MachineEvent, p: string)
    requires MachineCan(s, m)
    ensures SameAddress(s, MachineNext(s, m), p)
  {
    hide Adopted, Released, MergeFrom, PatchStatus, EndMachine, AskPriority, Picks, KnownOS;
    if !m.MRelease? { L.MachinePools(s, m); }
  }

  lemma StepKeepsAddress(s: State, e: Event, p: string)
    requires Enabled(s, e)
    ensures SameAddress(s, Next(s, e), p)
  {
    hide UserNext, MachineNext, ClusterNext, PoolNext, IPNext, UserCan, MachineCan, IPCan, MergeFrom, Marked,
         PatchStatus, CheckedPool, HostPart;
    match e
    case User(u) => UserKeepsAddress(s, u, p);
    case Machine(m) => MachineKeepsAddress(s, m, p);
    case Cluster(c) =>
      ClusterFrame(s, c);
      if c.CMark? { L.ClusterPools(s, c); }
    case Pool(q) =>
      PoolFrame(s, q);
      if q.PPatch? { L.PoolPools(s, q); }
    case IP(i) => IPFrame(s, i);
  }

  predicate SeesAddress(s: State) {
    s.cw.CMarkPool? ==> s.cw.pool in s.pools && s.cw.hmp.address == s.pools[s.cw.pool].address
  }

  lemma ClusterSees(s: State, c: ClusterEvent)
    requires SeesAddress(s) && ClusterCan(s, c)
    ensures SeesAddress(ClusterNext(s, c))
  {
    hide HostPart, PatchIP, PatchPool, FreeIPs, Marked;
  }

  /** The other controllers leave the cluster worker alone. */
  lemma ClusterWaits(s: State, e: Event)
    requires Enabled(s, e) && !e.Cluster?
    ensures Next(s, e).cw == s.cw
  {
    hide UserNext, MachineNext, PoolNext, IPNext, UserCan, MachineCan, PoolCan, IPCan;
    match e
    case User(u) => L.UserWaits(s, u);
    case Machine(m) => MachineWaits(s, m);
    case Pool(q) => PoolFrame(s, q);
    case IP(i) => IPFrame(s, i);
  }

  lemma MachineWaits(s: State, m: MachineEvent)
    requires MachineCan(s, m)
    ensures MachineNext(s, m).cw == s.cw
  {
    hide BegunMachine, AskPriority, EndMachine, InFlight, Picks, KnownOS, PatchPool;
  }

  lemma StepKeepsSight(s: State, e: Event)
    requires SeesAddress(s) && Enabled(s, e)
    ensures SeesAddress(Next(s, e))
  {
    hide Next, Enabled, ClusterNext, ClusterCan;
    if e.Cluster? {
      ClusterStep(s, e.c);
      ClusterSees(s, e.c);
    } else {
      ClusterWaits(s, e);
      if s.cw.CMarkPool? { StepKeepsAddress(s, e, s.cw.pool); }
    }
  }

  lemma ClusterStep(s: State, c: ClusterEvent)
    ensures Enabled(s, Cluster(c)) <==> ClusterCan(s, c)
    ensures ClusterCan(s, c) ==> Next(s, Cluster(c)) == ClusterNext(s, c)
  {
    hide ClusterCan, ClusterNext;
  }

  lemma {:induction false} RunKeepsSight(s: State, es: seq<Event>)
    requires SeesAddress(s) && IsRun(s, es)
    ensures SeesAddress(End(s, es))
    decreases |es|
  {
    hide Next, Enabled, SeesAddress;
    if es != [] {
      StepKeepsSight(s, es[0]);
      RunKeepsSight(Next(s, es[0]), es[1..]);
    }
  }

  lemma {:induction false} RunKeepsAddress(s: State, es: seq<Event>, p: string)
    requires IsRun(s, es) && p in s.pools
    ensures SameAddress(s, End(s, es), p)
    decreases |es|
  {
    hide Next, Enabled;
    if es != [] {
      StepKeepsAddress(s, es[0], p);
      RunKeepsAddress(Next(s, es[0]), es[1..], p);
    }
  }

  lemma Sighted(s: State)
    requires Reachable(s)
    ensures SeesAddress(s)
  {
    hide IsRun, Uncut, End;
    var run :| IsRun(START, run) && Uncut(START, run) && End(START, run) == s;
    RunKeepsSight(START, run);
  }

  lemma {:induction false} ClusterRests(s: State, es: seq<Event>)
    requires IsRun(s, es) && forall k :: 0 <= k < |es| ==> !es[k].Cluster?
    ensures End(s, es).cw == s.cw
    decreases |es|
  {
    hide Next, Enabled;
    if es != [] {
      ClusterWaits(s, es[0]);
      ClusterRests(Next(s, es[0]), es[1..]);
    }
  }

  /** The closing patch of the reconcile stores the pool's host, its address without the port, as
      the cluster's endpoint, whatever the others do before it. */
  lemma EndpointStored(s: State, a: seq<Event>)
    requires Reachable(s) && s.cw.CMarkPool? && s.cw.pool in s.pools && HostPart(s.cw.hmp.address) != ""
    requires IsRun(MarkPool(s), a) && Uncut(MarkPool(s), a) && forall k :: 0 <= k < |a| ==> !a[k].Cluster?
    ensures var s1, c := End(MarkPool(s), a), s.cw.name;
      && Enabled(s1, Cluster(CEnd)) && c in Next(s1, Cluster(CEnd)).clusters
      && var host, address := Next(s1, Cluster(CEnd)).clusters[c].host, s.pools[s.cw.pool].address;
      && host == HostPart(address) != "" && ':' !in host && (host == address || host + ":" <= address)
  {
    hide Reachable, Inv, IsRun, Uncut, End, HostPart, MergeFrom, EndCluster;
    Sighted(s);
    Unwritten(s);
    HostBeforeColon(s.pools[s.cw.pool].address);
    MarkReachable(s, a);
    ClusterRests(MarkPool(s), a);
    ClusterEnds(End(MarkPool(s), a));
  }

  lemma Unwritten(s: State)
    requires Reachable(s) && s.cw.CMarkPool?
    ensures s.cw.snap.finalizer && !s.cw.snap.deleting
  {
    hide Reachable, AccountInv, PoolInv, C.ClustersOk, C.GivenOk;
    ReachableHolds(s);
  }

  lemma RunReachable(s: State, es: seq<Event>)
    requires Reachable(s) && IsRun(s, es) && Uncut(s, es)
    ensures Reachable(End(s, es))
  {
    hide IsRun, Uncut, End;
    var run :| IsRun(START, run) && Uncut(START, run) && End(START, run) == s;
    Join(START, run, es);
  }

  lemma MarkReachable(s: State, a: seq<Event>)
    requires Reachable(s) && s.cw.CMarkPool? && s.cw.pool in s.pools
    requires IsRun(MarkPool(s), a) && Uncut(MarkPool(s), a)
    ensures Reachable(End(MarkPool(s), a))
  {
    hide Reachable, IsRun, Uncut, End, MarkPool;
    One(s, Cluster(CMark));
    UncutWithoutCrash(s, [Cluster(CMark)]);
    RunReachable(s, [Cluster(CMark)]);
    RunReachable(MarkPool(s), a);
  }

  /** The cluster takes the address of a machine pool and its reconcile runs to its end (`a` is
      what the others do meanwhile). From then on (`b`), for as long as the cluster is in the
      store, a machine that is ready on that pool has the cluster's endpoint as its address. */
  lemma ReadyAtEndpoint(s: State, a: seq<Event>, b: seq<Event>, n: string)
    requires Reachable(s) && s.cw.CMarkPool? && s.cw.pool in s.pools && HostPart(s.cw.hmp.address) != ""
    requires IsRun(MarkPool(s), a) && Uncut(MarkPool(s), a) && forall k :: 0 <= k < |a| ==> !a[k].Cluster?
    requires Enabled(End(MarkPool(s), a), Cluster(CEnd))
    requires var s2 := Next(End(MarkPool(s), a), Cluster(CEnd));
      && IsRun(s2, b) && Uncut(s2, b) && L.ClusterStays(s2, b, s.cw.name)
      && n in End(s2, b).machines && End(s2, b).machines[n].ready
      && End(s2, b).machines[n].poolRef == Some(s.cw.pool)
    ensures var s3, c := End(Next(End(MarkPool(s), a), Cluster(CEnd)), b), s.cw.name;
      && c in s3.clusters && s3.clusters[c].port == 6443
      && s3.machines[n].addresses == [s3.clusters[c].host]
  {
    hide Reachable, Inv, IsRun, Uncut, End, HostPart, Next, MarkPool, L.ClusterStays, Enabled;
    var s0, p, e := MarkPool(s), s.cw.pool, Cluster(CEnd);
    var s1 := End(s0, a);
    var s2 := Next(s1, e);
    EndpointStored(s, a);
    MarkReachable(s, a);
    One(s1, e);
    UncutWithoutCrash(s1, [e]);
    RunReachable(s1, [e]);
    RunReachable(s2, b);
    ReachableHolds(s2);
    ReachableHolds(End(s2, b));
    L.EndpointForEver(s2, b, s.cw.name);
    MarkKeepsAddress(s);
    RunKeepsAddress(s0, a, p);
    StepKeepsAddress(s1, e, p);
    RunKeepsAddress(s2, b, p);
    L.ReadyAgrees(End(s2, b), n);
  }

  lemma MarkKeepsAddress(s: State)
    requires s.cw.CMarkPool? && s.cw.pool in s.pools
    ensures SameAddress(s, MarkPool(s), s.cw.pool)
  {
    hide HostPart, MergeFrom, PatchStatus;
  }
}
