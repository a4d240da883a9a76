/** The labels of one machine pool over a whole run. The machine, cluster and pool controllers
    each read the labels, compute new ones and later patch the difference, and anything may come
    between; a reconcile may also crash or give up. The labels the run leaves are those of its
    operations executed one after the other, each in one step. */
module Serial {
  import opened Strings
  import opened Labels
  import opened Protocol
  import opened PoolSafety
  import opened Accounting
  import opened Runs
  import C = ClusterSafety
  import F = Fallback
  import L = Lifecycle

  datatype Op = Adopt(cluster: string) | Release | Mark | Check(sshUp: bool)

  /** The labels an operation computes from the ones it read. */
  function Effect(op: Op, labels: Labels): Labels {
    match op
    case Adopt(cluster) => Adopted(labels, cluster)
    case Release => Released(labels)
    case Mark => Marked(labels)
    case Check(sshUp) => Checked(labels, sshUp)
  }

  /** When a controller begins an operation: the label selector of its list call, and for a
      release that the pool is held. */
  predicate Guard(op: Op, labels: Labels) {
    match op
    case Adopt(cluster) => cluster != "" && Valid(labels) && At(labels, ClusterName) == Some("")
    case Release => Valid(labels) && ClusterName in labels && labels[ClusterName] != ""
    case Mark => Valid(labels)
    case Check(_) => true
  }

  /** The operations one after the other, each reading what the one before left. */
  function Execute(labels: Labels, ops: seq<Op>): Labels {
    if ops == [] then labels else Effect(ops[|ops| - 1], Execute(labels, ops[..|ops| - 1]))
  }

  /** Each operation's guard holds where it is executed. */
  predicate Legal(labels: Labels, ops: seq<Op>) {
    ops == [] ||
    (Legal(labels, ops[..|ops| - 1]) && Guard(ops[|ops| - 1], Execute(labels, ops[..|ops| - 1])))
  }

  lemma OneMore(labels: Labels, ops: seq<Op>, op: Op)
    ensures Execute(labels, ops + [op]) == Effect(op, Execute(labels, ops))
    ensures Legal(labels, ops + [op]) <==> Legal(labels, ops) && Guard(op, Execute(labels, ops))
  {
    assert (ops + [op])[..|ops|] == ops;
  }

  // ------------------------------------------- one patch against one step of its operation

  lemma AdoptMerges(read: Labels, cur: Labels, cluster: string)
    requires At(cur, ClusterName) == At(read, ClusterName)
    ensures MergeFrom(read, Adopted(read, cluster), cur) == Adopted(cur, cluster)
  {
    Same(MergeFrom(read, Adopted(read, cluster), cur), Adopted(cur, cluster));
  }

  lemma ReleaseMerges(read: Labels, cur: Labels)
    requires At(cur, ClusterName) == At(read, ClusterName) && ControlPlane in read
    ensures MergeFrom(read, Released(read), cur) == Released(cur)
  {
    Same(MergeFrom(read, Released(read), cur), Released(cur));
  }

  /** A release that read no mark leaves a mark set meanwhile in place. */
  lemma ReleaseMergesAhead(read: Labels, cur: Labels)
    requires At(cur, ClusterName) == At(read, ClusterName) && ControlPlane !in read
    ensures MergeFrom(read, Released(read), cur) == cur[ClusterName := ""]
  {
    Same(MergeFrom(read, Released(read), cur), cur[ClusterName := ""]);
  }

  lemma MarkMerges(read: Labels, cur: Labels)
    ensures MergeFrom(read, Marked(read), cur) == if At(read, ControlPlane) == Some("") then cur else Marked(cur)
  {
    Same(MergeFrom(read, Marked(read), cur), if At(read, ControlPlane) == Some("") then cur else Marked(cur));
  }

  lemma CheckMerges(read: Labels, cur: Labels, sshUp: bool)
    requires At(cur, PoolValid) == At(read, PoolValid)
    requires PoolValid !in read ==> At(cur, ClusterName) == At(read, ClusterName)
    ensures MergeFrom(read, Checked(read, sshUp), cur) == Checked(cur, sshUp)
  {
    hide Checked, MergeFrom, ParseBool;
    assert CountsAsValid(cur) == CountsAsValid(read);
    Same(MergeFrom(read, Checked(read, sshUp), cur), Checked(cur, sshUp));
  }

  lemma CheckKeepsValid(labels: Labels, sshUp: bool)
    requires Valid(labels)
    ensures Checked(labels, sshUp) == labels
  {
  }


  // ------------------------------------------------------------------ the serial order

  /** The operation on `p` that takes effect with an event. All take effect with their patch,
      but for a mark of a pool that was listed with the mark, whose patch says nothing: that one
      takes effect with the listing. A reconcile that crashes or gives up before its patch has
      no effect. */
  function OpOf(s: State, e: Event, p: string): Option<Op>
    requires Enabled(s, e)
  {
    match e
    case Machine(m) =>
      if m.MAdoptPatch? && s.mw.pool == p then Some(Adopt(s.mw.cluster))
      else if m.MRelease? && s.mw.pool == p then Some(Release)
      else None
    case Cluster(c) =>
      if c.CPickPool? && c.choice == Some(p) && IsMarked(s.pools[p]) then Some(Mark)
      else if c.CMark? && s.cw.pool == p && !IsMarked(s.cw.hmp) then Some(Mark)
      else None
    case Pool(q) => if q.PPatch? && s.pw.name == p then Some(Check(q.ssh.Up?)) else None
    case _ => None
  }

  /** A release under way that read no mark: its patch will leave a mark set meanwhile, so its
      place in the order is where it read. */
  predicate Ahead(s: State, p: string) {
    s.mw.MClean? && s.mw.pool == p && ControlPlane !in s.mw.hmp.labels
  }

  /** The operations in their order, and the place of a release under way. */
  datatype History = History(log: seq<Op>, at: nat)

  function With(h: History, op: Op): seq<Op> {
    if h.at <= |h.log| then h.log[..h.at] + [op] + h.log[h.at..] else h.log + [op]
  }

  function Recorded(h: History, s: State, e: Event, p: string): History
    requires Enabled(s, e)
  {
    var op := OpOf(s, e, p);
    if op.Some? then h.(log := if op.value == Release && Ahead(s, p) then With(h, Release) else h.log + [op.value])
    else if e.Machine? && e.m.MBegin? then h.(at := |h.log|)
    else h
  }

  function Trace(s: State, es: seq<Event>, p: string, h: History): History
    requires IsRun(s, es)
    decreases |es|
  {
    if es == [] then h else Trace(Next(s, es[0]), es[1..], p, Recorded(h, s, es[0], p))
  }

  const NOTHING := History([], 0)

  // ---------------------------------------------------------------- one step of the order

  /** The order explains the labels, also with the release that is under way. */
  ghost predicate Explains(start: Labels, h: History, labels: Labels, ahead: bool) {
    && Legal(start, h.log) && Execute(start, h.log) == labels
    && (ahead ==>
          && h.at <= |h.log| && Legal(start, With(h, Release))
          && Execute(start, With(h, Release)) == labels[ClusterName := ""])
  }

  /** The operations of the other controllers commute with a release that is under way. */
  lemma Commutes(labels: Labels, op: Op)
    requires (op.Mark? || op.Check?) && Valid(labels)
    ensures Guard(op, labels[ClusterName := ""])
    ensures Effect(op, labels[ClusterName := ""]) == Effect(op, labels)[ClusterName := ""]
  {
    hide Checked;
    if op.Check? {
      CheckKeepsValid(labels, op.sshUp);
      CheckKeepsValid(labels[ClusterName := ""], op.sshUp);
    } else {
      Same(Marked(labels)[ClusterName := ""], Marked(labels[ClusterName := ""]));
    }
  }

  lemma Appends(start: Labels, h: History, labels: Labels, ahead: bool, op: Op)
    requires Explains(start, h, labels, ahead) && Guard(op, labels)
    requires ahead ==> (op.Mark? || op.Check?) && Valid(labels)
    ensures Explains(start, h.(log := h.log + [op]), Effect(op, labels), ahead)
  {
    hide Execute, Legal, Guard, Effect;
    OneMore(start, h.log, op);
    if ahead {
      var h' := h.(log := h.log + [op]);
      assert With(h', Release) == With(h, Release) + [op];
      OneMore(start, With(h, Release), op);
      Commutes(labels, op);
    }
  }

  /** A release takes its place as it reads. */
  lemma Places(start: Labels, h: History, labels: Labels)
    requires Explains(start, h, labels, false) && Guard(Release, labels) && ControlPlane !in labels
    ensures Explains(start, h.(at := |h.log|), labels, true)
  {
    hide Execute, Legal, Guard;
    var h' := h.(at := |h.log|);
    assert With(h', Release) == h.log + [Release];
    OneMore(start, h.log, Release);
    Same(labels[ClusterName := ""], Released(labels));
  }

  // ---------------------------------------------------------------------- a valid pool stays so

  lemma CheckStaysValid(s: State, ssh: SshResult, p: string)
    requires PoolInv(s) && s.pw.PCheck? && s.pw.name in s.pools && p in s.pools && Valid(s.pools[p].labels)
    ensures p in CheckPool(s, ssh).pools && Valid(CheckPool(s, ssh).pools[p].labels)
  {
    hide MachinesOk, MachineWorkerOk, PatchPool, CheckedPool;
    CheckLabels(s.pools[s.pw.name], s.pw.snap, ssh);
  }

  lemma MachineStaysValid(s: State, m: MachineEvent, p: string)
    requires PoolInv(s) && MachineCan(s, m) && p in s.pools && Valid(s.pools[p].labels)
    ensures p in MachineNext(s, m).pools && Valid(MachineNext(s, m).pools[p].labels)
  {
    hide MachinesOk, PatchStatus, Kept, Exclusive, EndMachine, AskPriority, Picks, KnownOS;
    if m.MRelease? {
      assert At(MachineNext(s, m).pools[p].labels, PoolValid) == At(s.pools[p].labels, PoolValid);
    } else {
      L.MachinePools(s, m);
      if m.MAdoptPatch? {
        assert At(AdoptPatch(s).pools[p].labels, PoolValid) == At(s.pools[p].labels, PoolValid);
      }
    }
  }

  lemma UserStaysValid(s: State, u: UserEvent, p: string)
    requires UserCan(s, u) && p in s.pools
    ensures p in UserNext(s, u).pools && UserNext(s, u).pools[p] == s.pools[p]
  {
    hide PutMachine, PutCluster, Taken;
  }

  lemma MarkStaysValid(s: State, p: string)
    requires s.cw.CMarkPool? && s.cw.pool in s.pools && p in s.pools && Valid(s.pools[p].labels)
    ensures p in MarkPool(s).pools && Valid(MarkPool(s).pools[p].labels)
  {
    hide PatchPool, Marked, HostPart;
    MarkLabels(s.pools[s.cw.pool], s.cw.hmp);
  }

  lemma StaysValid(s: State, e: Event, p: string)
    requires Inv(s) && Enabled(s, e) && p in s.pools && Valid(s.pools[p].labels)
    ensures p in Next(s, e).pools && Valid(Next(s, e).pools[p].labels)
  {
    hide C.ClusterInv, AccountInv, PoolInv, UserNext, MachineNext, ClusterNext, PoolNext, IPNext, UserCan, MachineCan,
         IPCan, MarkPool, CheckPool, Valid;
    match e
    case User(u) => UserStaysValid(s, u, p);
    case Machine(m) => MachineStaysValid(s, m, p);
    case Cluster(c) =>
      ClusterFrame(s, c);
      if c.CMark? { L.ClusterPools(s, c); MarkStaysValid(s, p); }
    case Pool(q) =>
      PoolFrame(s, q);
      if q.PPatch? { L.PoolPools(s, q); CheckStaysValid(s, q.ssh, p); }
    case IP(i) => IPFrame(s, i);
  }

  /** The pool the cluster controller is about to mark is valid. */
  predicate MarksValid(s: State) {
    s.cw.CMarkPool? ==> s.cw.pool in s.pools && Valid(s.pools[s.cw.pool].labels)
  }

  lemma ClusterListsValid(s: State, c: ClusterEvent)
    requires ClusterCan(s, c) && ClusterNext(s, c).cw.CMarkPool?
    ensures var cw := ClusterNext(s, c).cw;
      ClusterNext(s, c).pools == s.pools && cw.pool in s.pools && Valid(s.pools[cw.pool].labels)
  {
    hide HostPart, PatchIP, PatchPool, FreeIPs, Marked, Valid;
  }

  lemma StepMarksValid(s: State, e: Event)
    requires Inv(s) && MarksValid(s) && Enabled(s, e)
    ensures MarksValid(Next(s, e))
  {
    hide Inv, Next, Enabled, ClusterNext, ClusterCan, Valid;
    if e.Cluster? {
      F.ClusterStep(s, e.c);
      if ClusterNext(s, e.c).cw.CMarkPool? { ClusterListsValid(s, e.c); }
    } else {
      F.ClusterWaits(s, e);
      if s.cw.CMarkPool? { StaysValid(s, e, s.cw.pool); }
    }
  }

  // ------------------------------------------------------------ every patch in one step

  lemma AheadGuard(s: State, p: string)
    requires PoolInv(s) && s.mw.MClean? && s.mw.pool == p
    ensures p in s.pools && Guard(Release, s.pools[p].labels)
    ensures At(s.mw.hmp.labels, ClusterName) == At(s.pools[p].labels, ClusterName)
  {
    hide Agrees, HostPart;
    MachineAt(s, s.mw.name);
  }

  lemma AdoptInOneStep(s: State)
    requires PoolInv(s) && s.mw.MAdopt? && s.mw.pool in s.pools
    ensures var labels := s.pools[s.mw.pool].labels;
      && Guard(Adopt(s.mw.cluster), labels)
      && AdoptPatch(s).pools[s.mw.pool].labels == Adopted(labels, s.mw.cluster) == labels[ClusterName := s.mw.cluster]
      && s.mw.cluster != "" && Matches(labels, map[PoolValid := "true", ClusterName := ""])
  {
    hide MachinesOk, MergeFrom;
    PoolSelectors(s.pools[s.mw.pool]);
    AdoptMerges(s.mw.hmp.labels, s.pools[s.mw.pool].labels, s.mw.cluster);
  }

  lemma ReleaseInOneStep(s: State)
    requires PoolInv(s) && s.mw.MClean? && s.mw.pool in s.pools
    ensures var labels := s.pools[s.mw.pool].labels;
      && Guard(Release, labels)
      && ReleasePool(s).pools[s.mw.pool].labels ==
           (if ControlPlane in s.mw.hmp.labels then Released(labels) else labels[ClusterName := ""])
      && Released(labels) == labels[ClusterName := ""] - {ControlPlane}
      && Matches(labels, map[PoolValid := "true"]) && ClusterName in labels && labels[ClusterName] != ""
  {
    hide PoolInv, MergeFrom;
    AheadGuard(s, s.mw.pool);
    PoolSelectors(s.pools[s.mw.pool]);
    if ControlPlane in s.mw.hmp.labels { ReleaseMerges(s.mw.hmp.labels, s.pools[s.mw.pool].labels); }
    else { ReleaseMergesAhead(s.mw.hmp.labels, s.pools[s.mw.pool].labels); }
  }

  lemma MarkInOneStep(s: State)
    requires s.cw.CMarkPool? && s.cw.pool in s.pools
    ensures var labels := s.pools[s.cw.pool].labels;
      && MarkPool(s).pools[s.cw.pool].labels == (if IsMarked(s.cw.hmp) then labels else Marked(labels))
      && Marked(labels) == labels[ControlPlane := ""]
      && (IsMarked(s.cw.hmp) <==> Matches(s.cw.hmp.labels, map[ControlPlane := ""]))
  {
    hide MergeFrom, HostPart;
    MarkMerges(s.cw.hmp.labels, s.pools[s.cw.pool].labels);
  }

  lemma CheckInOneStep(s: State, ssh: SshResult)
    requires PoolInv(s) && s.pw.PCheck? && s.pw.name in s.pools
    ensures CheckPool(s, ssh).pools[s.pw.name].labels == Checked(s.pools[s.pw.name].labels, ssh.Up?)
    ensures var labels := s.pools[s.pw.name].labels;
      Checked(labels, ssh.Up?) ==
        if PoolValid !in labels then labels[PoolValid := if ssh.Up? then "true" else "false"][ClusterName := ""]
        else if labels[PoolValid] in {"1", "t", "T", "true", "TRUE", "True"} then labels
        else labels[PoolValid := if ssh.Up? then "true" else "false"]
  {
    hide MachinesOk, MachineWorkerOk, MergeFrom, Checked, PatchStatus;
    CheckedInFull(s.pools[s.pw.name].labels, ssh.Up?);
    CheckMerges(s.pw.snap.labels, s.pools[s.pw.name].labels, ssh.Up?);
    CheckedLabels(s.pw.snap, ssh);
  }

  lemma CheckedInFull(labels: Labels, sshUp: bool)
    ensures Checked(labels, sshUp) ==
      if PoolValid !in labels then labels[PoolValid := if sshUp then "true" else "false"][ClusterName := ""]
      else if labels[PoolValid] in {"1", "t", "T", "true", "TRUE", "True"} then labels
      else labels[PoolValid := if sshUp then "true" else "false"]
  {
    assert !ParseBool("false");
  }

  lemma CheckedLabels(snap: HyperMachinePool, ssh: SshResult)
    ensures CheckedPool(snap, ssh).labels == Checked(snap.labels, ssh.Up?)
  {
    hide ParseBool;
  }

  // ------------------------------------------------------------------------- every step

  lemma AdoptExplained(s: State, p: string, start: Labels, h: History)
    requires PoolInv(s) && MachineCan(s, MAdoptPatch) && p in s.pools
    requires Explains(start, h, s.pools[p].labels, false)
    ensures Explains(start, Recorded(h, s, Machine(MAdoptPatch), p), AdoptPatch(s).pools[p].labels, false)
  {
    hide PoolInv, Explains, PatchPool, Adopted, Guard, Effect;
    if s.mw.pool == p {
      AdoptInOneStep(s);
      Appends(start, h, s.pools[p].labels, false, Adopt(s.mw.cluster));
      EffectOf(s.pools[p].labels, Adopt(s.mw.cluster));
    }
  }

  lemma ReleaseExplained(s: State, p: string, start: Labels, h: History)
    requires PoolInv(s) && MachineCan(s, MRelease) && p in s.pools
    requires Explains(start, h, s.pools[p].labels, Ahead(s, p))
    ensures Explains(start, Recorded(h, s, Machine(MRelease), p), ReleasePool(s).pools[p].labels, false)
  {
    hide PoolInv, Explains, PatchPool, Released, Guard, Effect, With;
    var labels := s.pools[p].labels;
    Weaker(start, h, labels, Ahead(s, p));
    if s.mw.pool == p {
      ReleaseInOneStep(s);
      if Ahead(s, p) {
        TakesPlace(start, h, labels);
      } else {
        Appends(start, h, labels, false, Release);
        EffectOf(labels, Release);
      }
    }
  }

  lemma MachineExplained(s: State, m: MachineEvent, p: string, start: Labels, h: History)
    requires PoolInv(s) && MachineCan(s, m) && p in s.pools
    requires Explains(start, h, s.pools[p].labels, Ahead(s, p))
    ensures var s' := MachineNext(s, m);
      p in s'.pools && Explains(start, Recorded(h, s, Machine(m), p), s'.pools[p].labels, Ahead(s', p))
  {
    hide PoolInv, Explains, PatchPool, Picks, KnownOS, EndMachine, AskPriority, Adopted, Released, With;
    Weaker(start, h, s.pools[p].labels, Ahead(s, p));
    if m.MBegin? {
      BeginExplained(s, m, p, start, h);
    } else {
      NotCleaning(s, m);
      if m.MAdoptPatch? { AdoptExplained(s, p, start, h); }
      else if m.MRelease? { ReleaseExplained(s, p, start, h); }
      else { L.MachinePools(s, m); }
    }
  }

  lemma EffectOf(labels: Labels, op: Op)
    ensures Effect(op, labels) ==
      match op
      case Adopt(cluster) => Adopted(labels, cluster)
      case Release => Released(labels)
      case Mark => Marked(labels)
      case Check(sshUp) => Checked(labels, sshUp)
  {
  }

  lemma Weaker(start: Labels, h: History, labels: Labels, ahead: bool)
    requires Explains(start, h, labels, ahead)
    ensures Explains(start, h, labels, false)
  {
    hide Legal, Execute;
  }

  lemma TakesPlace(start: Labels, h: History, labels: Labels)
    requires Explains(start, h, labels, true)
    ensures Explains(start, h.(log := With(h, Release)), labels[ClusterName := ""], false)
  {
    hide Legal, Execute, With;
  }

  lemma NotCleaning(s: State, m: MachineEvent)
    requires MachineCan(s, m) && !m.MBegin?
    ensures !MachineNext(s, m).mw.MClean?
  {
    hide PatchPool, EndMachine, Picks, KnownOS, InFlight;
  }

  lemma BeginExplained(s: State, m: MachineEvent, p: string, start: Labels, h: History)
    requires PoolInv(s) && MachineCan(s, m) && m.MBegin? && p in s.pools
    requires Explains(start, h, s.pools[p].labels, false)
    ensures var s' := MachineNext(s, m);
      s'.pools == s.pools && Explains(start, h.(at := |h.log|), s.pools[p].labels, Ahead(s', p))
  {
    hide PoolInv, Explains, Guard, Legal, Execute;
    var s' := MachineNext(s, m);
    Moved(start, h, s.pools[p].labels);
    if Ahead(s', p) {
      BeginGuard(s, m, p);
      Places(start, h, s.pools[p].labels);
    }
  }

  lemma Moved(start: Labels, h: History, labels: Labels)
    requires Explains(start, h, labels, false)
    ensures Explains(start, h.(at := |h.log|), labels, false)
  {
    hide Legal, Execute;
  }

  lemma BeginGuard(s: State, m: MachineEvent, p: string)
    requires PoolInv(s) && MachineCan(s, m) && m.MBegin? && Ahead(MachineNext(s, m), p)
    ensures p in s.pools && Guard(Release, s.pools[p].labels) && ControlPlane !in s.pools[p].labels
  {
    hide Agrees, HostPart, MachineWorkerOk, Exclusive;
    MachineAt(s, m.name);
  }

  lemma ClusterExplained(s: State, c: ClusterEvent, p: string, start: Labels, h: History)
    requires PoolInv(s) && MarksValid(s) && ClusterCan(s, c) && p in s.pools
    requires Explains(start, h, s.pools[p].labels, Ahead(s, p))
    ensures var s' := ClusterNext(s, c);
      p in s'.pools && Explains(start, Recorded(h, s, Cluster(c), p), s'.pools[p].labels, Ahead(s', p))
  {
    hide PoolInv, Explains, ClusterNext, PatchPool, HostPart, Marked, Effect, Guard;
    var labels := s.pools[p].labels;
    ClusterFrame(s, c);
    if Ahead(s, p) { AheadGuard(s, p); AheadValid(labels); }
    if c.CPickPool? && c.choice == Some(p) && IsMarked(s.pools[p]) {
      MarkGuard(labels);
      Appends(start, h, labels, Ahead(s, p), Mark);
      MarkedAgain(labels);
    } else if c.CMark? {
      L.ClusterPools(s, c);
      MarkInOneStep(s);
      if s.cw.pool == p && !IsMarked(s.cw.hmp) {
        MarkGuard(labels);
        Appends(start, h, labels, Ahead(s, p), Mark);
        EffectOf(labels, Mark);
      }
    }
  }

  lemma AheadValid(labels: Labels)
    requires Guard(Release, labels)
    ensures Valid(labels)
  {
  }

  lemma MarkGuard(labels: Labels)
    requires Valid(labels)
    ensures Guard(Mark, labels)
  {
  }

  lemma MarkedAgain(labels: Labels)
    requires At(labels, ControlPlane) == Some("")
    ensures Effect(Mark, labels) == labels
  {
    Same(Marked(labels), labels);
  }

  lemma PoolExplained(s: State, q: PoolEvent, p: string, start: Labels, h: History)
    requires PoolInv(s) && PoolCan(s, q) && p in s.pools
    requires Explains(start, h, s.pools[p].labels, Ahead(s, p))
    ensures var s' := PoolNext(s, q);
      p in s'.pools && Explains(start, Recorded(h, s, Pool(q), p), s'.pools[p].labels, Ahead(s', p))
  {
    hide PoolInv, Explains, PatchPool, CheckedPool, Checked, Effect, Guard;
    var labels := s.pools[p].labels;
    PoolFrame(s, q);
    if Ahead(s, p) { AheadGuard(s, p); AheadValid(labels); }
    if q.PPatch? && s.pw.name == p {
      var op := Check(q.ssh.Up?);
      CheckInOneStep(s, q.ssh);
      assert Guard(op, labels) by { CheckGuard(labels, op); }
      Appends(start, h, labels, Ahead(s, p), op);
      EffectOf(labels, op);
    }
  }

  lemma CheckGuard(labels: Labels, op: Op)
    requires op.Check?
    ensures Guard(op, labels)
  {
  }

  lemma StepExplained(s: State, e: Event, p: string, start: Labels, h: History)
    requires Inv(s) && MarksValid(s) && Enabled(s, e) && p in s.pools
    requires Explains(start, h, s.pools[p].labels, Ahead(s, p))
    ensures p in Next(s, e).pools
    ensures Explains(start, Recorded(h, s, e, p), Next(s, e).pools[p].labels, Ahead(Next(s, e), p))
  {
    hide C.ClusterInv, AccountInv, PoolInv, MarksValid, UserNext, MachineNext, ClusterNext, PoolNext, IPNext, UserCan,
         MachineCan, ClusterCan, PoolCan, IPCan, Explains;
    match e
    case User(u) => UserStaysValid(s, u, p); L.UserWaits(s, u);
    case Machine(m) => MachineExplained(s, m, p, start, h);
    case Cluster(c) => ClusterExplained(s, c, p, start, h);
    case Pool(q) => PoolExplained(s, q, p, start, h);
    case IP(i) => IPFrame(s, i);
  }

  lemma {:induction false} RunExplained(s: State, es: seq<Event>, p: string, start: Labels, h: History)
    requires Inv(s) && MarksValid(s) && IsRun(s, es) && Uncut(s, es) && p in s.pools
    requires Explains(start, h, s.pools[p].labels, Ahead(s, p))
    ensures p in End(s, es).pools
    ensures Explains(start, Trace(s, es, p, h), End(s, es).pools[p].labels, Ahead(End(s, es), p))
    decreases |es|
  {
    hide Inv, MarksValid, Next, Enabled, CutsRelease, Explains, Recorded, Ahead;
    if es != [] {
      StepExplained(s, es[0], p, start, h);
      StepKeeps(s, es[0]);
      StepMarksValid(s, es[0]);
      RunExplained(Next(s, es[0]), es[1..], p, start, Recorded(h, s, es[0], p));
    }
  }

  // ------------------------------------------------------------------------ the theorem

  /** How often an operation on `p` takes effect along the run. */
  function Effects(s: State, es: seq<Event>, p: string, op: Op): nat
    requires IsRun(s, es)
    decreases |es|
  {
    if es == [] then 0
    else (if OpOf(s, es[0], p) == Some(op) then 1 else 0) + Effects(Next(s, es[0]), es[1..], p, op)
  }

  lemma OneRecorded(h: History, s: State, e: Event, p: string, op: Op)
    requires Enabled(s, e)
    ensures multiset(Recorded(h, s, e, p).log)[op] == multiset(h.log)[op] + if OpOf(s, e, p) == Some(op) then 1 else 0
  {
    hide OpOf, Enabled, Ahead;
    if h.at <= |h.log| { assert h.log == h.log[..h.at] + h.log[h.at..]; }
  }

  lemma {:induction false} RunRecords(s: State, es: seq<Event>, p: string, h: History, op: Op)
    requires IsRun(s, es)
    ensures multiset(Trace(s, es, p, h).log)[op] == multiset(h.log)[op] + Effects(s, es, p, op)
    decreases |es|
  {
    hide Next, Enabled, Recorded, OpOf;
    if es != [] {
      OneRecorded(h, s, es[0], p, op);
      RunRecords(Next(s, es[0]), es[1..], p, Recorded(h, s, es[0], p), op);
    }
  }

  lemma {:induction false} RunMarksValid(s: State, es: seq<Event>)
    requires Inv(s) && MarksValid(s) && IsRun(s, es) && Uncut(s, es)
    ensures MarksValid(End(s, es))
    decreases |es|
  {
    hide Inv, MarksValid, Next, Enabled, CutsRelease;
    if es != [] {
      StepKeeps(s, es[0]);
      StepMarksValid(s, es[0]);
      RunMarksValid(Next(s, es[0]), es[1..]);
    }
  }

  lemma ReachableMarksValid(s: State)
    requires Reachable(s)
    ensures MarksValid(s)
  {
    hide Inv, IsRun, Uncut, End;
    var run :| IsRun(START, run) && Uncut(START, run) && End(START, run) == s;
    StartHolds();
    RunMarksValid(START, run);
  }

  lemma Nothing(labels: Labels)
    ensures Explains(labels, NOTHING, labels, false)
  {
  }

  /** Label-level serialisability: on every run of the protocol and for every pool, the labels
      the run leaves are those of executing, one after the other and each with its guard met,
      exactly the operations that take effect along the run. The run may begin anywhere but
      within a release of the pool. */
  lemma Serialisable(s: State, es: seq<Event>, p: string)
    requires Reachable(s) && p in s.pools && !(s.mw.MClean? && s.mw.pool == p)
    requires IsRun(s, es) && Uncut(s, es)
    ensures var log := Trace(s, es, p, NOTHING).log;
      && p in End(s, es).pools && End(s, es).pools[p].labels == Execute(s.pools[p].labels, log)
      && Legal(s.pools[p].labels, log)
      && forall op :: multiset(log)[op] == Effects(s, es, p, op)
  {
    hide Reachable, Inv, MarksValid, IsRun, Uncut, End, Trace, Effects, Execute, Legal;
    ReachableHolds(s);
    ReachableMarksValid(s);
    Nothing(s.pools[p].labels);
    RunExplained(s, es, p, s.pools[p].labels, NOTHING);
    forall op ensures multiset(Trace(s, es, p, NOTHING).log)[op] == Effects(s, es, p, op) {
      RunRecords(s, es, p, NOTHING, op);
    }
  }
}
