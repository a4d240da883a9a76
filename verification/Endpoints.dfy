/** Where the endpoints of clusters come from, and when two clusters have the same one. IP pools
    are exclusive, machine pools taken as fallback are not. */
module Endpoints {
  import opened Strings
  import opened Labels
  import opened Protocol
  import opened PoolSafety
  import opened Accounting
  import opened Runs
  import opened Scenes
  import opened Guarantees
  import C = ClusterSafety
  import F = Fallback
  import L = Lifecycle
  import W = Windows

  // ------------------------------------------------------------------------ the origin

  /** The machine pool each cluster took its fallback endpoint from last. */
  function Marking(o: map<string, string>, s: State, e: Event): map<string, string>
    requires Enabled(s, e)
  {
    if e == Cluster(CMark) then o[s.cw.name := s.cw.pool] else o
  }

  function Origins(s: State, es: seq<Event>, o: map<string, string>): map<string, string>
    requires IsRun(s, es)
    decreases |es|
  {
    if es == [] then o else Origins(Next(s, es[0]), es[1..], Marking(o, s, es[0]))
  }

  /** The cluster holds an IP pool that has an address. */
  predicate OnIP(s: State, c: HyperCluster) {
    IPPoolName in c.labels && c.labels[IPPoolName] in s.ips && s.ips[c.labels[IPPoolName]].ip != ""
  }

  /** An endpoint that is not an IP pool's is the host of the pool it was taken from. */
  predicate Traced(s: State, o: map<string, string>, n: string, c: HyperCluster) {
    c.host != "" && !OnIP(s, c) ==> n in o && o[n] in s.pools && c.host == HostPart(s.pools[o[n]].address)
  }

  ghost predicate AllTraced(s: State, o: map<string, string>) {
    && (forall n :: n in s.clusters ==> Traced(s, o, n, s.clusters[n]))
    && (s.cw.CClose? && s.cw.snap.finalizer ==> Traced(s, o, s.cw.name, s.cw.mem))
  }

  /** Pools and IP pools stay as far as endpoints are concerned. */
  ghost predicate SameSources(s: State, s': State) {
    && L.SameVIPs(s, s')
    && forall p :: p in s.pools ==> F.SameAddress(s, s', p)
  }

  lemma StepKeepsSources(s: State, e: Event)
    requires Enabled(s, e)
    ensures SameSources(s, Next(s, e))
  {
    hide Enabled, Next, F.SameAddress, L.SameVIPs;
    L.StepKeepsVIPs(s, e);
    forall p | p in s.pools ensures F.SameAddress(s, Next(s, e), p) { F.StepKeepsAddress(s, e, p); }
  }

  /** A cluster whose IP pool, if it has one, is in the store stays traced. */
  lemma StaysTraced(s: State, s': State, o: map<string, string>, n: string, c: HyperCluster)
    requires Traced(s, o, n, c) && SameSources(s, s') && C.HostOfIP(s.ips, c)
    ensures Traced(s', o, n, c)
  {
    hide HostPart;
    if c.host != "" && !OnIP(s, c) { assert F.SameAddress(s, s', o[n]); }
  }

  // ------------------------------------------------------------------------- every step

  /** What the closing patch of the cluster controller writes is traced; clusters and patch stay
      as they are. */
  lemma StillTraced(s: State, s': State, o: map<string, string>)
    requires C.ClusterInv(s) && AllTraced(s, o) && SameSources(s, s')
    requires s'.clusters == s.clusters && s'.cw == s.cw
    ensures AllTraced(s', o)
  {
    hide C.GivenOk, C.ExclusiveIPs, Traced, SameSources, C.Claimed, C.Unheld;
    forall n | n in s'.clusters ensures Traced(s', o, n, s'.clusters[n]) {
      C.ClusterAt(s, n);
      StaysTraced(s, s', o, n, s.clusters[n]);
    }
    if s.cw.CClose? && s.cw.snap.finalizer { StaysTraced(s, s', o, s.cw.name, s.cw.mem); }
  }

  lemma SameEndpoint(s: State, o: map<string, string>, n: string, c: HyperCluster, c': HyperCluster)
    requires Traced(s, o, n, c) && c'.host == c.host && c'.labels == c.labels
    ensures Traced(s, o, n, c')
  {
    hide HostPart;
  }

  lemma NewTraced(s: State, o: map<string, string>, n: string, labels: Labels)
    ensures Traced(s, o, n, FreshCluster(labels))
  {
  }

  lemma UserTraced(s: State, u: UserEvent, o: map<string, string>)
    requires C.ClusterInv(s) && AllTraced(s, o) && UserCan(s, u)
    ensures AllTraced(UserNext(s, u), o)
  {
    hide C.ClusterInv, Traced, UserNext, UserCan;
    var s' := UserNext(s, u);
    var s0 := s'.(clusters := s.clusters);
    StepKeepsSources(s, User(u));
    StepsUser(s, u);
    L.UserWaits(s, u);
    SourcesOnly(s, s', s0);
    StillTraced(s, s0, o);
    forall n | n in s'.clusters ensures Traced(s', o, n, s'.clusters[n]) {
      UserWrites(s, u, n);
      if n in s.clusters && s'.clusters[n] == s.clusters[n].(deleting := s'.clusters[n].deleting) {
        SameEndpoint(s0, o, n, s.clusters[n], s'.clusters[n]);
      } else {
        NewTraced(s0, o, n, s'.clusters[n].labels);
      }
      ClustersApart(s0, s', o, n, s'.clusters[n]);
    }
    if s'.cw.CClose? { ClustersApart(s0, s', o, s'.cw.name, s'.cw.mem); }
  }

  lemma StepsUser(s: State, u: UserEvent)
    ensures Enabled(s, User(u)) <==> UserCan(s, u)
    ensures UserCan(s, u) ==> Next(s, User(u)) == UserNext(s, u)
  {
    hide UserCan, UserNext;
  }

  lemma SourcesOnly(s: State, s': State, s0: State)
    requires SameSources(s, s') && s0 == s'.(clusters := s0.clusters)
    ensures SameSources(s, s0)
  {
  }

  lemma ClustersApart(s: State, s': State, o: map<string, string>, n: string, c: HyperCluster)
    requires s'.pools == s.pools && s'.ips == s.ips
    ensures Traced(s, o, n, c) <==> Traced(s', o, n, c)
  {
    hide HostPart;
  }

  lemma UserWrites(s: State, u: UserEvent, n: string)
    requires UserCan(s, u) && n in UserNext(s, u).clusters
    ensures var c := UserNext(s, u).clusters[n];
      (n in s.clusters && c == s.clusters[n].(deleting := c.deleting)) || c == FreshCluster(c.labels)
  {
    hide PutMachine, Taken;
  }

  // ------------------------------------------------------------------ the cluster controller

  lemma ClusterWorkerOnly(s: State, c: ClusterEvent, o: map<string, string>)
    requires C.ClusterInv(s) && AllTraced(s, o) && ClusterCan(s, c) && !c.CEnd? && !c.CMark?
    requires var s' := ClusterNext(s, c);
      s'.cw.CClose? && s'.cw.snap.finalizer ==> Traced(s', o, s'.cw.name, s'.cw.mem)
    ensures AllTraced(ClusterNext(s, c), o)
  {
    hide C.ClusterInv, Traced, ClusterNext, ClusterCan;
    var s' := ClusterNext(s, c);
    F.ClusterStep(s, c);
    StepKeepsSources(s, Cluster(c));
    ClusterWrites(s, c);
    var s0 := s'.(cw := s.cw);
    WorkerApart(s, s', s0);
    StillTraced(s, s0, o);
    forall n | n in s'.clusters ensures Traced(s', o, n, s'.clusters[n]) {
      ClustersApart(s0, s', o, n, s'.clusters[n]);
    }
  }

  lemma WorkerApart(s: State, s': State, s0: State)
    requires SameSources(s, s') && s0 == s'.(cw := s0.cw)
    ensures SameSources(s, s0)
  {
  }

  lemma BeginTraced(s: State, name: string, owned: bool, o: map<string, string>)
    requires AllTraced(s, o)
    ensures var cw := BegunCluster(s, name, owned);
      cw.CClose? ==> Traced(s, o, cw.name, cw.mem)
  {
    hide Traced;
    if name in s.clusters {
      var hc := s.clusters[name];
      SameEndpoint(s, o, name, hc, hc.(finalizer := true));
      SameEndpoint(s, o, name, hc, hc.(finalizer := false));
    }
  }

  lemma ClaimTraced(s: State, o: map<string, string>)
    requires C.ClusterInv(s) && s.cw.CClaimIP? && s.cw.ip in s.ips
    ensures var s' := ClaimIP(s); s'.cw.CClose? ==> Traced(s', o, s'.cw.name, s'.cw.mem)
  {
    hide C.ClustersOk, C.GivenOk, C.ExclusiveIPs, MergeFrom, HostPart;
  }

  lemma PickTraced(s: State, c: ClusterEvent, o: map<string, string>)
    requires C.ClusterInv(s) && ClusterCan(s, c) && (c.CPickIP? || c.CPickPool? || c.CRelease? || c.CCrash?)
    ensures var s' := ClusterNext(s, c); s'.cw.CClose? ==> Traced(s', o, s'.cw.name, s'.cw.mem)
  {
    hide C.ClustersOk, C.GivenOk, C.ExclusiveIPs, PatchIP, FreeIPs, ValidPools;
  }

  lemma MarkTraced(s: State, o: map<string, string>)
    requires C.ClusterInv(s) && AllTraced(s, o) && F.SeesAddress(s) && s.cw.CMarkPool? && s.cw.pool in s.pools
    ensures AllTraced(MarkPool(s), o[s.cw.name := s.cw.pool])
  {
    hide C.ClustersOk, C.GivenOk, C.ExclusiveIPs, MergeFrom, HostPart, Marked, PatchStatus, Traced;
    var s', w := MarkPool(s), s.cw;
    var o' := o[w.name := w.pool];
    StepKeepsSources(s, Cluster(CMark));
    assert s.clusters[w.name].host == "";
    forall n | n in s'.clusters ensures Traced(s', o', n, s'.clusters[n]) {
      C.ClusterAt(s, n);
      StaysTraced(s, s', o, n, s.clusters[n]);
      Retraced(s', o, w.name, w.pool, n, s.clusters[n]);
    }
    MarkedTraced(s, o);
  }

  lemma Retraced(s: State, o: map<string, string>, m: string, p: string, n: string, c: HyperCluster)
    requires Traced(s, o, n, c) && (n == m ==> c.host == "")
    ensures Traced(s, o[m := p], n, c)
  {
    hide HostPart;
  }

  lemma MarkedTraced(s: State, o: map<string, string>)
    requires C.ClusterWorkerOk(s) && F.SeesAddress(s) && s.cw.CMarkPool? && s.cw.pool in s.pools
    ensures var s' := MarkPool(s); s'.cw.CClose? && Traced(s', o[s.cw.name := s.cw.pool], s'.cw.name, s'.cw.mem)
  {
    hide HostPart, MergeFrom, Marked, PatchStatus;
  }

  lemma EndTraced(s: State, o: map<string, string>)
    requires C.ClusterInv(s) && AllTraced(s, o) && (s.cw.CClose? || s.cw.CReleased?)
    ensures AllTraced(EndCluster(s), o)
  {
    hide C.ClustersOk, C.GivenOk, C.ExclusiveIPs, Traced, EndCluster, C.Unheld, C.Claimed;
    var s' := EndCluster(s);
    C.EndFrame(s);
    if s.cw.CReleased? { C.EndRemoves(s); } else { C.EndWrites(s); }
    forall n | n in s'.clusters ensures Traced(s', o, n, s'.clusters[n]) {
      if n == s.cw.name {
        if s.cw.snap.finalizer { SameEndpoint(s, o, n, s.cw.mem, s'.clusters[n]); }
        else { SameEndpoint(s, o, n, s.clusters[n], s'.clusters[n]); }
      }
      ClustersApart(s, s', o, n, s'.clusters[n]);
    }
  }

  lemma ClusterTraced(s: State, c: ClusterEvent, o: map<string, string>)
    requires C.ClusterInv(s) && AllTraced(s, o) && F.SeesAddress(s) && ClusterCan(s, c)
    ensures AllTraced(ClusterNext(s, c), Marking(o, s, Cluster(c)))
  {
    hide C.ClusterInv, AllTraced, MarkPool, EndCluster, ClaimIP, Traced, F.SeesAddress, BegunCluster;
    F.ClusterStep(s, c);
    match c
    case CMark => MarkTraced(s, o);
    case CEnd => EndTraced(s, o);
    case CClaim => ClaimTraced(s, o); ClusterWorkerOnly(s, c, o);
    case CBegin(name, owned) =>
      BeginTraced(s, name, owned, o);
      BeginApart(s, c, o);
      ClusterWorkerOnly(s, c, o);
    case _ => PickTraced(s, c, o); ClusterWorkerOnly(s, c, o);
  }

  lemma BeginApart(s: State, c: ClusterEvent, o: map<string, string>)
    requires ClusterCan(s, c) && c.CBegin?
    ensures var s' := ClusterNext(s, c);
      s'.pools == s.pools && s'.ips == s.ips && s'.cw == BegunCluster(s, c.name, c.owned)
    ensures forall n: string, hc: HyperCluster :: Traced(s, o, n, hc) ==> Traced(ClusterNext(s, c), o, n, hc)
  {
    hide BegunCluster, HostPart;
  }

  lemma StepTraced(s: State, e: Event, o: map<string, string>)
    requires Inv(s) && F.SeesAddress(s) && AllTraced(s, o) && Enabled(s, e)
    ensures AllTraced(Next(s, e), Marking(o, s, e))
  {
    hide PoolInv, AccountInv, C.ClusterInv, AllTraced, F.SeesAddress, UserNext, MachineNext, ClusterNext, PoolNext,
         IPNext, UserCan, MachineCan, ClusterCan, PoolCan, IPCan, SameSources;
    match e
    case User(u) => UserTraced(s, u, o);
    case Cluster(c) => ClusterTraced(s, c, o);
    case Machine(m) =>
      StepKeepsSources(s, e);
      MachineFrame(s, m);
      F.ClusterWaits(s, e);
      StillTraced(s, Next(s, e), o);
    case Pool(p) =>
      StepKeepsSources(s, e);
      PoolFrame(s, p);
      StillTraced(s, Next(s, e), o);
    case IP(i) =>
      StepKeepsSources(s, e);
      IPFrame(s, i);
      StillTraced(s, Next(s, e), o);
  }

  lemma {:induction false} RunTraced(s: State, es: seq<Event>, o: map<string, string>)
    requires Inv(s) && F.SeesAddress(s) && AllTraced(s, o) && IsRun(s, es) && Uncut(s, es)
    ensures AllTraced(End(s, es), Origins(s, es, o))
    decreases |es|
  {
    hide Inv, F.SeesAddress, AllTraced, Next, Enabled, CutsRelease, Marking;
    if es != [] {
      StepTraced(s, es[0], o);
      StepKeeps(s, es[0]);
      F.StepKeepsSight(s, es[0]);
      RunTraced(Next(s, es[0]), es[1..], Marking(o, s, es[0]));
    }
  }

  // ------------------------------------------------------------- when two are the same

  /** The addresses of the IP pools and of the machine pools all differ. */
  ghost predicate DistinctSources(s: State) {
    && (forall i, j :: i in s.ips && j in s.ips && i != j && s.ips[i].ip != "" ==> s.ips[i].ip != s.ips[j].ip)
    && (forall p, q :: p in s.pools && q in s.pools && p != q ==>
          HostPart(s.pools[p].address) != HostPart(s.pools[q].address))
    && (forall i, p :: i in s.ips && p in s.pools && s.ips[i].ip != "" ==>
          s.ips[i].ip != HostPart(s.pools[p].address))
  }

  lemma StartTraced()
    ensures AllTraced(START, map[]) && F.SeesAddress(START)
  {
  }

  /** On every run, with different addresses in all pools, two clusters have the same endpoint
      if and only if both took it from the same machine pool. */
  lemma SharedExactly(es: seq<Event>, a: string, b: string)
    requires IsRun(START, es) && Uncut(START, es) && DistinctSources(End(START, es))
    requires a in End(START, es).clusters && b in End(START, es).clusters && a != b
    requires End(START, es).clusters[a].host != "" && End(START, es).clusters[b].host != ""
    ensures var s, o := End(START, es), Origins(START, es, map[]);
      s.clusters[a].host == s.clusters[b].host <==>
        && !OnIP(s, s.clusters[a]) && !OnIP(s, s.clusters[b])
        && a in o && b in o && o[a] == o[b]
  {
    hide IsRun, End, Uncut, Origins, Inv, AllTraced, F.SeesAddress, DistinctSources;
    StartHolds();
    StartTraced();
    RunKeeps(START, es);
    RunTraced(START, es, map[]);
    SameHost(End(START, es), Origins(START, es, map[]), a, b);
  }

  lemma SameHost(s: State, o: map<string, string>, a: string, b: string)
    requires Inv(s) && AllTraced(s, o) && DistinctSources(s)
    requires a in s.clusters && b in s.clusters && a != b && s.clusters[a].host != "" && s.clusters[b].host != ""
    ensures s.clusters[a].host == s.clusters[b].host <==>
      && !OnIP(s, s.clusters[a]) && !OnIP(s, s.clusters[b])
      && a in o && b in o && o[a] == o[b]
  {
    hide PoolInv, AccountInv, C.ClusterWorkerOk, C.GivenOk, HostPart, C.Claimed;
    C.ClusterAt(s, a);
    C.ClusterAt(s, b);
    assert Traced(s, o, a, s.clusters[a]) && Traced(s, o, b, s.clusters[b]);
  }

  // ------------------------------------------------------------------ and it happens

  /** A valid pool is there, and a cluster without an endpoint, but no free IP. */
  predicate Falls(s: State, n: string, p: string) {
    && s.cw.CIdle? && n in s.clusters && s.clusters[n] == W.FINALISED
    && p in s.pools && Valid(s.pools[p].labels) && s.pools[p].address == "h" && s.ips == map[]
  }

  function Choosing(n: string, p: string): seq<Event> {
    [Cluster(CBegin(n, true)), Cluster(CPickIP(None))] + [Cluster(CPickPool(Some(p)))]
  }

  function Taking(n: string, p: string): seq<Event> {
    Choosing(n, p) + [Cluster(CMark), Cluster(CEnd)]
  }

  lemma HostOfH()
    ensures HostPart("h") == "h"
  {
    assert Index("h", ":") == -1 by {
      IndexSkips("h", "", ":");
      assert "h" + "" == "h";
    }
  }

  function Chosen(s: State, p: string): HyperMachinePool
    requires p in s.pools
  {
    s.pools[p].(labels := Marked(s.pools[p].labels))
  }

  lemma Chooses(s: State, n: string, p: string)
    requires Falls(s, n, p)
    ensures IsRun(s, Choosing(n, p))
    ensures End(s, Choosing(n, p)) == s.(cw := CMarkPool(n, W.FINALISED, W.FINALISED, p, s.pools[p]))
  {
    var b, i, q := Cluster(CBegin(n, true)), Cluster(CPickIP(None)), Cluster(CPickPool(Some(p)));
    assert FreeIPs(Next(s, b)) == {};
    Two(s, b, i);
    assert p in ValidPools(Next(Next(s, b), i));
    Then(s, [b, i], q);
  }

  lemma Marks(s: State, n: string, p: string)
    requires Falls(s, n, p)
    ensures var s1 := s.(cw := CMarkPool(n, W.FINALISED, W.FINALISED, p, s.pools[p]));
      && IsRun(s1, [Cluster(CMark), Cluster(CEnd)])
      && End(s1, [Cluster(CMark), Cluster(CEnd)]) ==
           s.(clusters := s.clusters[n := WithEndpoint(W.FINALISED, "h")], pools := s.pools[p := Chosen(s, p)])
  {
    hide MergeFrom, Marked, HostPart;
    HostOfH();
    MergeUnchanged(s.pools[p].labels, Marked(s.pools[p].labels));
    MergeUnchanged(W.FINALISED.labels, W.FINALISED.labels);
    Two(s.(cw := CMarkPool(n, W.FINALISED, W.FINALISED, p, s.pools[p])), Cluster(CMark), Cluster(CEnd));
  }

  lemma Takes(s: State, n: string, p: string)
    requires Falls(s, n, p)
    ensures IsRun(s, Taking(n, p))
    ensures End(s, Taking(n, p)) ==
            s.(clusters := s.clusters[n := WithEndpoint(W.FINALISED, "h")], pools := s.pools[p := Chosen(s, p)])
  {
    hide IsRun, End, Choosing, Falls, WithEndpoint, Chosen;
    Chooses(s, n, p);
    Marks(s, n, p);
    Join(s, Choosing(n, p), [Cluster(CMark), Cluster(CEnd)]);
  }

  const NODE := HyperMachinePool(map[PoolValid := "true", ClusterName := ""], "h", PoolStatus("", "ubuntu", "", "", ""))

  const SETUP := [User(NewCluster("a", map[])), User(NewCluster("b", map[])), User(NewPool("p", NODE))]

  const SET_UP := START.(clusters := map["a" := FreshCluster(map[]), "b" := FreshCluster(map[])],
                         pools := map["p" := NODE])

  const LOOKING := SET_UP.(clusters := map["a" := W.FINALISED, "b" := W.FINALISED])

  lemma Setup()
    ensures IsRun(START, SETUP) && End(START, SETUP) == SET_UP
  {
    var e := SETUP;
    Two(START, e[0], e[1]);
    Then(START, [e[0], e[1]], e[2]);
    assert [e[0], e[1]] + [e[2]] == SETUP;
  }

  lemma BothFinalised()
    ensures var es := W.FinalisingCluster("a") + W.FinalisingCluster("b");
      IsRun(SET_UP, es) && End(SET_UP, es) == LOOKING
  {
    hide IsRun, End, W.FinalisingCluster;
    W.FinalisedCluster(SET_UP, "a");
    var s1 := SET_UP.(clusters := SET_UP.clusters["a" := W.FINALISED]);
    W.FinalisedCluster(s1, "b");
    Join(SET_UP, W.FinalisingCluster("a"), W.FinalisingCluster("b"));
    assert s1.clusters["b" := W.FINALISED] == LOOKING.clusters;
  }

  lemma BothTake()
    ensures var es := Taking("a", "p") + Taking("b", "p");
      && IsRun(LOOKING, es)
      && var cs := End(LOOKING, es).clusters; "a" in cs && "b" in cs && cs["a"].host == cs["b"].host == "h"
  {
    hide IsRun, End, Taking;
    Takes(LOOKING, "a", "p");
    Takes(End(LOOKING, Taking("a", "p")), "b", "p");
    Join(LOOKING, Taking("a", "p"), Taking("b", "p"));
  }

  predicate Shared(cs: map<string, HyperCluster>, a: string, b: string) {
    a in cs && b in cs && cs[a].host == cs[b].host != ""
  }

  /** Nothing keeps a machine pool from being taken twice: from the empty store on, without any
      crash, two clusters come to have the same endpoint. */
  lemma FallbackShares()
    ensures exists es :: IsRun(START, es) && Uncut(START, es) && Shared(End(START, es).clusters, "a", "b")
  {
    hide IsRun, End, Uncut, Taking, W.FinalisingCluster;
    Setup();
    BothFinalised();
    BothTake();
    var r2, r3 := W.FinalisingCluster("a") + W.FinalisingCluster("b"), Taking("a", "p") + Taking("b", "p");
    Join(START, SETUP, r2);
    Join(START, SETUP + r2, r3);
    NoCrash();
    UncutWithoutCrash(START, SETUP + r2 + r3);
  }

  lemma NoCrash()
    ensures var es := SETUP + (W.FinalisingCluster("a") + W.FinalisingCluster("b"))
                      + (Taking("a", "p") + Taking("b", "p"));
      forall k :: 0 <= k < |es| ==> es[k] != Machine(MCrash) && es[k] != Cluster(CCrash)
  {
  }
}
