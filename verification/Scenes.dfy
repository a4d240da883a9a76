/** Runs put together from shorter ones, and two stretches every example run contains: a new
    machine gets its finalizer, and a machine adopts a pool that was chosen for it. */
module Scenes {
  import opened Strings
  import opened Labels
  import opened Protocol

  lemma {:induction false} Then(s: State, es: seq<Event>, e: Event)
    requires IsRun(s, es) && Enabled(End(s, es), e)
    ensures IsRun(s, es + [e]) && End(s, es + [e]) == Next(End(s, es), e)
    decreases |es|
  {
    hide Enabled, Next;
    if es == [] {
      assert [e][1..] == [];
      assert [] + [e] == [e];
    } else {
      Then(Next(s, es[0]), es[1..], e);
      assert (es + [e])[1..] == es[1..] + [e];
    }
  }

  lemma {:induction false} Join(s: State, a: seq<Event>, b: seq<Event>)
    requires IsRun(s, a) && IsRun(End(s, a), b)
    ensures IsRun(s, a + b) && End(s, a + b) == End(End(s, a), b)
    ensures Uncut(s, a) && Uncut(End(s, a), b) ==> Uncut(s, a + b)
    decreases |a|
  {
    hide Enabled, Next, CutsRelease;
    if a == [] {
      assert [] + b == b;
    } else {
      Join(Next(s, a[0]), a[1..], b);
      assert (a + b)[1..] == a[1..] + b;
    }
  }

  lemma {:induction false} UncutWithoutCrash(s: State, es: seq<Event>)
    requires IsRun(s, es)
    requires forall k :: 0 <= k < |es| ==> es[k] != Machine(MCrash) && es[k] != Cluster(CCrash)
    ensures Uncut(s, es)
    decreases |es|
  {
    hide Enabled, Next;
    if es != [] {
      UncutWithoutCrash(Next(s, es[0]), es[1..]);
    }
  }

  lemma One(s: State, e: Event)
    requires Enabled(s, e)
    ensures IsRun(s, [e]) && End(s, [e]) == Next(s, e)
  {
    hide Enabled, Next;
    Then(s, [], e);
    assert [] + [e] == [e];
  }

  lemma Two(s: State, a: Event, b: Event)
    requires Enabled(s, a) && Enabled(Next(s, a), b)
    ensures IsRun(s, [a, b]) && End(s, [a, b]) == Next(Next(s, a), b)
  {
    hide Enabled, Next;
    One(s, a);
    Then(s, [a], b);
    assert [a] + [b] == [a, b];
  }

  // --------------------------------------------------------------------------- fresh names

  lemma {:induction false} Longer(names: set<string>) returns (n: nat)
    ensures forall x :: x in names ==> |x| < n
    decreases names
  {
    if names == {} {
      n := 0;
    } else {
      var x :| x in names;
      var m := Longer(names - {x});
      n := m + |x| + 1;
    }
  }

  lemma Fresh(names: set<string>) returns (x: string)
    ensures x !in names && x != ""
  {
    var n := Longer(names);
    x := seq(n + 1, i => 'x');
  }

  // ------------------------------------------------------------------- stretches of a run

  const WAITING := FRESH_MACHINE.(finalizer := true)

  function Finalising(n: string, c: string): seq<Event> {
    [Machine(MBegin(n, true, c, c, false)), Machine(MEnd)]
  }

  /** The first reconcile of a machine gives it the finalizer and does nothing else. */
  lemma Finalised(s: State, n: string, c: string)
    requires s.mw.MIdle? && c in s.clusters && c != "" && n in s.machines && s.machines[n] == FRESH_MACHINE
    ensures IsRun(s, Finalising(n, c))
    ensures End(s, Finalising(n, c)) == s.(machines := s.machines[n := WAITING])
  {
    Two(s, Machine(MBegin(n, true, c, c, false)), Machine(MEnd));
  }

  /** The worker is idle, `n` waits to be provisioned for `c`, and its lists may yield `p`. */
  predicate Waits(s: State, n: string, p: string, c: string) {
    && s.mw.MIdle? && c in s.clusters && c != ""
    && n in s.machines && s.machines[n] == WAITING
    && p in FreePools(s) && (p in FreeMarkedPools(s) || FreeMarkedPools(s) == {})
  }

  function Listing(s: State, n: string, p: string, c: string): seq<Event> {
    [Machine(MBegin(n, true, c, c, true))] +
    if p in FreeMarkedPools(s) then [Machine(MPick1(Some(p)))]
    else [Machine(MPick1(None)), Machine(MPick2(Some(p)))]
  }

  function Listed(s: State, n: string, p: string, c: string): State
    requires p in s.pools && c in s.clusters && n in s.machines
  {
    s.(mw := MAdopt(n, s.machines[n], c, s.clusters[c], p, s.pools[p]))
  }

  lemma Lists(s: State, n: string, p: string, c: string)
    requires Waits(s, n, p, c)
    ensures IsRun(s, Listing(s, n, p, c)) && End(s, Listing(s, n, p, c)) == Listed(s, n, p, c)
  {
    hide FreePools, FreeMarkedPools;
    var e, f, g := Machine(MBegin(n, true, c, c, true)), Machine(MPick1(Some(p))), Machine(MPick1(None));
    assert p in s.pools by { InPools(s, p); }
    SameFree(s, Next(s, e));
    if p in FreeMarkedPools(s) {
      Two(s, e, f);
      assert [e] + [f] == [e, f];
    } else {
      Two(s, e, g);
      SameFree(s, Next(Next(s, e), g));
      Then(s, [e, g], Machine(MPick2(Some(p))));
      assert [e] + [g, Machine(MPick2(Some(p)))] == [e, g] + [Machine(MPick2(Some(p)))];
    }
  }

  lemma SameFree(s: State, s': State)
    requires s'.pools == s.pools
    ensures FreePools(s') == FreePools(s) && FreeMarkedPools(s') == FreeMarkedPools(s)
  {
  }

  lemma InPools(s: State, p: string)
    requires p in FreePools(s)
    ensures p in s.pools && IsFree(s.pools[p])
  {
  }

  /** From the listed pool to a ready machine. */
  const PROVISIONING := [Machine(MAdoptPatch), Machine(MFinish(true)), Machine(MEnd)]

  function Provisioned(s: State, n: string, p: string, c: string): State
    requires p in s.pools && n in s.machines
  {
    var hmp := s.pools[p];
    s.(pools := s.pools[p := hmp.(labels := Adopted(hmp.labels, c))],
       machines := s.machines[n := MadeReady(Adopting(WAITING, p), hmp)])
  }

  /** A machine that waits adopts the pool and becomes ready. */
  lemma Provisions(s: State, n: string, p: string, c: string)
    requires s.mw.MIdle? && p in s.pools && IsFree(s.pools[p]) && c in s.clusters && c != ""
    requires n in s.machines && s.machines[n] == WAITING
    ensures IsRun(Listed(s, n, p, c), PROVISIONING)
    ensures End(Listed(s, n, p, c), PROVISIONING) == Provisioned(s, n, p, c)
  {
    hide HostPart, Adopted, MergeFrom;
    var s1, hmp := Listed(s, n, p, c), s.pools[p];
    var a, f, e := Machine(MAdoptPatch), Machine(MFinish(true)), Machine(MEnd);
    MergeUnchanged(hmp.labels, Adopted(hmp.labels, c));
    Two(s1, a, f);
    Then(s1, [a, f], e);
    assert [a, f] + [e] == PROVISIONING;
  }

  function AdoptionRun(s: State, n: string, p: string, c: string): seq<Event> {
    Listing(s, n, p, c) + PROVISIONING
  }

  lemma Adopts(s: State, n: string, p: string, c: string)
    requires Waits(s, n, p, c)
    ensures p in s.pools && IsRun(s, AdoptionRun(s, n, p, c))
    ensures End(s, AdoptionRun(s, n, p, c)) == Provisioned(s, n, p, c)
  {
    hide IsRun, End, FreePools, FreeMarkedPools;
    InPools(s, p);
    Lists(s, n, p, c);
    Provisions(s, n, p, c);
    Join(s, Listing(s, n, p, c), PROVISIONING);
  }
}
