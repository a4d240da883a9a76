/** Why exclusive adoption and exclusive IPs need a release and the removal of the finalizer to
    be uninterrupted: a crash between the two leaves a machine that references a free pool, or a
    cluster that holds a free IP. */
module Windows {
  import opened Strings
  import opened Labels
  import opened Protocol
  import opened PoolSafety
  import opened Accounting
  import opened Runs
  import opened Scenes
  import C = ClusterSafety

  lemma Shared(s: State, a: string, b: string)
    requires a in s.machines && b in s.machines && a != b
    requires s.machines[a].poolRef.Some? && s.machines[b].poolRef == s.machines[a].poolRef
    ensures !Exclusive(s.machines)
  {
  }

  lemma CutThenAdopted(s: State, p: string, n: string, c: string)
    requires s.mw.MReleased? && s.mw.name in s.machines && s.machines[s.mw.name].poolRef == Some(p)
    requires Waits(s.(mw := MIdle), n, p, c)
    ensures var es := [Machine(MCrash)] + AdoptionRun(s.(mw := MIdle), n, p, c);
      IsRun(s, es) && !Exclusive(End(s, es).machines)
  {
    hide IsRun, End, AdoptionRun, Enabled, Next, FreePools, FreeMarkedPools;
    var s1 := s.(mw := MIdle);
    Crashes(s);
    One(s, Machine(MCrash));
    Adopts(s1, n, p, c);
    Join(s, [Machine(MCrash)], AdoptionRun(s1, n, p, c));
    Shared(Provisioned(s1, n, p, c), s.mw.name, n);
  }

  lemma Crashes(s: State)
    requires s.mw.MReleased?
    ensures Enabled(s, Machine(MCrash)) && Next(s, Machine(MCrash)) == s.(mw := MIdle)
  {
  }

  /** Wherever a crash cuts a release short, the next machine provisioned may be given the pool
      the deleted one still references. */
  lemma CutReleaseShares(s: State, n: string, c: string)
    requires Reachable(s) && s.mw.MReleased?
    requires s.mw.snap.poolRef.Some? && Waits(s.(mw := MIdle), n, s.mw.snap.poolRef.value, c)
    ensures exists es :: IsRun(s, [Machine(MCrash)] + es) && !Exclusive(End(s, [Machine(MCrash)] + es).machines)
  {
    hide Reachable, IsRun, End, C.ClusterInv, AccountInv, MachinesOk, Exclusive, Waits;
    ReachableHolds(s);
    MachineKept(s);
    CutThenAdopted(s, s.mw.snap.poolRef.value, n, c);
  }

  // -------------------------------------------------------------- the crash can happen

  const FREE_LABELS: Labels := map[PoolValid := "true", ClusterName := ""]
  const NODE := HyperMachinePool(FREE_LABELS, "10.0.0.1:22", PoolStatus("", "ubuntu", "5.4", "n1", "eth0"))

  /** A cluster, one free pool and two machines. */
  const SETUP := [User(NewCluster("c", map[])), User(NewPool("p", NODE)), User(NewMachine("a")), User(NewMachine("b"))]

  const SET_UP := START.(clusters := map["c" := FreshCluster(map[])], pools := map["p" := NODE],
                         machines := map["a" := FRESH_MACHINE, "b" := FRESH_MACHINE])

  lemma Setup()
    ensures IsRun(START, SETUP) && End(START, SETUP) == SET_UP
  {
    var e := SETUP;
    Two(START, e[0], e[1]);
    Then(START, [e[0], e[1]], e[2]);
    assert [e[0], e[1]] + [e[2]] == [e[0], e[1], e[2]];
    Then(START, [e[0], e[1], e[2]], e[3]);
    assert [e[0], e[1], e[2]] + [e[3]] == SETUP;
  }

  /** The machine is deleted, up to the release of its pool. */
  function Deleting(n: string): seq<Event> {
    [User(DeleteMachine(n)), Machine(MBegin(n, true, "c", "c", true)), Machine(MRelease)]
  }

  lemma Deletes(s: State, n: string, p: string)
    requires s.mw.MIdle? && n in s.machines && s.machines[n].finalizer && s.machines[n].poolRef == Some(p)
    requires p in s.pools && Taken(s.pools[p])
    ensures IsRun(s, Deleting(n))
    ensures var m := s.machines[n].(deleting := true);
      End(s, Deleting(n)) == s.(machines := s.machines[n := m], mw := MReleased(n, m),
                                pools := s.pools[p := s.pools[p].(labels := Released(s.pools[p].labels))])
  {
    hide Released, MergeFrom;
    var d, b, r := User(DeleteMachine(n)), Machine(MBegin(n, true, "c", "c", true)), Machine(MRelease);
    MergeUnchanged(s.pools[p].labels, Released(s.pools[p].labels));
    Two(s, d, b);
    Then(s, [d, b], r);
    assert [d, b] + [r] == Deleting(n);
  }

  function Readied(): State {
    SET_UP.(machines := map["a" := WAITING, "b" := WAITING])
  }

  lemma Readies()
    ensures IsRun(SET_UP, Finalising("a", "c") + Finalising("b", "c"))
    ensures End(SET_UP, Finalising("a", "c") + Finalising("b", "c")) == Readied()
  {
    hide IsRun, End, Finalising;
    Finalised(SET_UP, "a", "c");
    var s1 := SET_UP.(machines := SET_UP.machines["a" := WAITING]);
    Finalised(s1, "b", "c");
    Join(SET_UP, Finalising("a", "c"), Finalising("b", "c"));
    assert s1.(machines := s1.machines["b" := WAITING]) == Readied();
  }

  lemma FirstWaits()
    ensures Waits(Readied(), "a", "p", "c")
  {
    var s := Readied();
    assert "p" in FreePools(s);
  }

  function Adopted1(): State {
    Provisioned(Readied(), "a", "p", "c")
  }

  function CutState(): State {
    var s := Adopted1();
    var m := s.machines["a"].(deleting := true);
    s.(machines := s.machines["a" := m], mw := MReleased("a", m),
       pools := s.pools["p" := s.pools["p"].(labels := Released(s.pools["p"].labels))])
  }

  lemma Cuts()
    ensures CutState().mw.MReleased? && CutState().mw.name == "a" && "a" in CutState().machines
    ensures CutState().machines["a"].poolRef == Some("p")
    ensures Waits(CutState().(mw := MIdle), "b", "p", "c")
  {
    hide HostPart;
    var s := CutState();
    var l := s.pools["p"].labels;
    assert l[PoolValid] == "true" && l[ClusterName] == "" && ControlPlane !in l;
    assert s.pools.Keys == {"p"};
    assert s.machines["b"] == WAITING;
  }

  /** And it can happen: from the empty store on, with one crash within a release, two machines
      come to reference one pool. */
  lemma UncutIsNeeded()
    ensures exists es :: IsRun(START, es) && !Exclusive(End(START, es).machines)
  {
    hide IsRun, End, Waits, Exclusive, AdoptionRun, Finalising, Deleting, Provisioned, HostPart;
    Setup();
    Readies();
    FirstWaits();
    Adopts(Readied(), "a", "p", "c");
    Taken1();
    Deletes(Adopted1(), "a", "p");
    Cuts();
    CutThenAdopted(CutState(), "p", "b", "c");
    var r2 := Finalising("a", "c") + Finalising("b", "c");
    var r3, r4 := AdoptionRun(Readied(), "a", "p", "c"), Deleting("a");
    var r5 := [Machine(MCrash)] + AdoptionRun(CutState().(mw := MIdle), "b", "p", "c");
    Join(START, SETUP, r2);
    Join(START, SETUP + r2, r3);
    Join(START, SETUP + r2 + r3, r4);
    Join(START, SETUP + r2 + r3 + r4, r5);
  }

  lemma Taken1()
    ensures Adopted1().mw.MIdle? && "p" in Adopted1().pools && Taken(Adopted1().pools["p"])
    ensures "a" in Adopted1().machines && Adopted1().machines["a"].finalizer
    ensures Adopted1().machines["a"].poolRef == Some("p")
  {
    hide HostPart;
  }

  // ------------------------------------------------------------------- the same with an IP

  /** The cluster has its finalizer and no endpoint yet, and its list may yield `i`. */
  predicate Seeks(s: State, n: string, i: string) {
    && s.cw.CIdle? && n in s.clusters && i in s.ips && s.ips[i].ip != ""
    && var c := s.clusters[n];
    && c.finalizer && !c.deleting && c.host == "" && !c.ready && IPPoolName !in c.labels
    && At(s.ips[i].labels, IPPool) == Some("")
  }

  function Claiming(n: string, i: string): seq<Event> {
    [Cluster(CBegin(n, true)), Cluster(CPickIP(Some(i)))] + [Cluster(CClaim)] + [Cluster(CEnd)]
  }

  lemma Claims(s: State, n: string, i: string)
    requires Seeks(s, n, i)
    ensures IsRun(s, Claiming(n, i))
    ensures var s' := End(s, Claiming(n, i));
      && s'.cw.CIdle? && i in s'.ips && s'.ips == s.ips[i := s.ips[i].(labels := s.ips[i].labels[IPPool := "0"])]
      && s'.clusters == s.clusters[n := WithEndpoint(s.clusters[n].(labels := s.clusters[n].labels[IPPoolName := i]),
                                                     s.ips[i].ip)]
  {
    hide MergeFrom;
    var b, p, c, e := Cluster(CBegin(n, true)), Cluster(CPickIP(Some(i))), Cluster(CClaim), Cluster(CEnd);
    var hc, hip := s.clusters[n], s.ips[i];
    MergeUnchanged(hip.labels, hip.labels[IPPool := "0"]);
    MergeUnchanged(hc.labels, hc.labels[IPPoolName := i]);
    assert i in FreeIPs(Next(s, b));
    Two(s, b, p);
    Then(s, [b, p], c);
    Then(s, [b, p] + [c], e);
  }

  lemma SharedIP(s: State, a: string, b: string)
    requires a in s.clusters && b in s.clusters && a != b
    requires IPPoolName in s.clusters[a].labels
    requires At(s.clusters[b].labels, IPPoolName) == At(s.clusters[a].labels, IPPoolName)
    ensures !C.ExclusiveIPs(s.clusters)
  {
  }

  lemma CutThenClaimed(s: State, i: string, n: string)
    requires s.cw.CReleased? && s.cw.name in s.clusters && At(s.clusters[s.cw.name].labels, IPPoolName) == Some(i)
    requires Seeks(s.(cw := CIdle), n, i)
    ensures var es := [Cluster(CCrash)] + Claiming(n, i);
      IsRun(s, es) && !C.ExclusiveIPs(End(s, es).clusters)
  {
    hide IsRun, End, Claiming;
    var s1 := s.(cw := CIdle);
    One(s, Cluster(CCrash));
    Claims(s1, n, i);
    Join(s, [Cluster(CCrash)], Claiming(n, i));
    SharedIP(End(s1, Claiming(n, i)), s.cw.name, n);
  }

  /** Wherever a crash cuts the release of an IP short, the next cluster may be given the IP the
      deleted one still holds. */
  lemma CutReleaseSharesIP(s: State, n: string)
    requires Reachable(s) && s.cw.CReleased? && IPPoolName in s.cw.snap.labels
    requires Seeks(s.(cw := CIdle), n, s.cw.snap.labels[IPPoolName])
    ensures exists es :: IsRun(s, [Cluster(CCrash)] + es) && !C.ExclusiveIPs(End(s, [Cluster(CCrash)] + es).clusters)
  {
    hide Reachable, IsRun, End, PoolInv, AccountInv, C.ClustersOk, C.GivenOk, C.ExclusiveIPs, Seeks, C.FreeIP;
    ReachableHolds(s);
    CutThenClaimed(s, s.cw.snap.labels[IPPoolName], n);
  }

  const VIP := HyperIPPool(map[IPPool := ""], "10.0.0.9")

  const IP_SETUP := [User(NewCluster("a", map[])), User(NewCluster("b", map[])), User(NewIP("i", VIP))]

  const IP_SET_UP := START.(clusters := map["a" := FreshCluster(map[]), "b" := FreshCluster(map[])],
                            ips := map["i" := VIP])

  lemma SetupIP()
    ensures IsRun(START, IP_SETUP) && End(START, IP_SETUP) == IP_SET_UP
  {
    var e := IP_SETUP;
    Two(START, e[0], e[1]);
    Then(START, [e[0], e[1]], e[2]);
    assert [e[0], e[1]] + [e[2]] == IP_SETUP;
  }

  function FinalisingCluster(n: string): seq<Event> {
    [Cluster(CBegin(n, true)), Cluster(CEnd)]
  }

  lemma FinalisedCluster(s: State, n: string)
    requires s.cw.CIdle? && n in s.clusters && !s.clusters[n].finalizer && !s.clusters[n].deleting
    ensures IsRun(s, FinalisingCluster(n))
    ensures End(s, FinalisingCluster(n)) == s.(clusters := s.clusters[n := s.clusters[n].(finalizer := true)])
  {
    hide MergeFrom;
    MergeUnchanged(s.clusters[n].labels, s.clusters[n].labels);
    Two(s, Cluster(CBegin(n, true)), Cluster(CEnd));
  }

  function DeletingCluster(n: string): seq<Event> {
    [User(DeleteCluster(n)), Cluster(CBegin(n, true)), Cluster(CRelease)]
  }

  lemma DeletesCluster(s: State, n: string, i: string)
    requires s.cw.CIdle? && n in s.clusters && s.clusters[n].finalizer
    requires At(s.clusters[n].labels, IPPoolName) == Some(i)
    requires i in s.ips && IPPool in s.ips[i].labels
    ensures IsRun(s, DeletingCluster(n))
    ensures var s', hc := End(s, DeletingCluster(n)), s.clusters[n].(deleting := true);
      && s'.cw == CReleased(n, hc) && s'.clusters == s.clusters[n := hc]
      && s'.ips == s.ips[i := s.ips[i].(labels := s.ips[i].labels[IPPool := ""])]
  {
    hide MergeFrom;
    var d, b, r := User(DeleteCluster(n)), Cluster(CBegin(n, true)), Cluster(CRelease);
    MergeUnchanged(s.ips[i].labels, s.ips[i].labels[IPPool := ""]);
    Two(s, d, b);
    Then(s, [d, b], r);
    assert [d, b] + [r] == DeletingCluster(n);
  }

  lemma BothFinalised()
    ensures IsRun(IP_SET_UP, FinalisingCluster("a") + FinalisingCluster("b"))
    ensures End(IP_SET_UP, FinalisingCluster("a") + FinalisingCluster("b")) == SeekState()
  {
    hide IsRun, End, FinalisingCluster;
    FinalisedCluster(IP_SET_UP, "a");
    var s1 := IP_SET_UP.(clusters := IP_SET_UP.clusters["a" := FINALISED]);
    FinalisedCluster(s1, "b");
    Join(IP_SET_UP, FinalisingCluster("a"), FinalisingCluster("b"));
    assert s1.clusters["b" := FINALISED] == SeekState().clusters;
  }

  const FINALISED := FreshCluster(map[]).(finalizer := true)

  function SeekState(): State {
    IP_SET_UP.(clusters := map["a" := FINALISED, "b" := FINALISED])
  }

  function CutShort(a: string, b: string, i: string): seq<Event> {
    Claiming(a, i) + DeletingCluster(a) + ([Cluster(CCrash)] + Claiming(b, i))
  }

  /** Two clusters look for an endpoint; one takes the IP and is deleted, a crash cutting the
      release short, and the other takes the IP too. */
  lemma CutsShort(s: State, a: string, b: string, i: string)
    requires Seeks(s, a, i) && Seeks(s, b, i) && a != b
    ensures IsRun(s, CutShort(a, b, i)) && !C.ExclusiveIPs(End(s, CutShort(a, b, i)).clusters)
  {
    hide IsRun, End, C.ExclusiveIPs, Claiming, DeletingCluster;
    Claims(s, a, i);
    var s1 := End(s, Claiming(a, i));
    DeletesCluster(s1, a, i);
    var s2 := End(s1, DeletingCluster(a));
    CutThenClaimed(s2, i, b);
    Join(s, Claiming(a, i), DeletingCluster(a));
    Join(s, Claiming(a, i) + DeletingCluster(a), [Cluster(CCrash)] + Claiming(b, i));
  }

  /** And it can happen: from the empty store on, with one crash within a release, two clusters
      come to hold one IP. */
  lemma UncutIsNeededForIPs()
    ensures exists es :: IsRun(START, es) && !C.ExclusiveIPs(End(START, es).clusters)
  {
    hide IsRun, End, C.ExclusiveIPs, FinalisingCluster, CutShort;
    SetupIP();
    BothFinalised();
    CutsShort(SeekState(), "a", "b", "i");
    var r := FinalisingCluster("a") + FinalisingCluster("b");
    Join(START, IP_SETUP, r);
    Join(START, IP_SETUP + r, CutShort("a", "b", "i"));
  }
}
