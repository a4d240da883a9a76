/** The `$1`..`$4` substitution of `ScpFile`: one `strings.Replace` per map entry, in the
    iteration order of a Go map, which is not determined. */
module Substitution {

  /** A placeholder is a dollar sign and a digit. */
  predicate IsKey(k: string) {
    |k| == 2 && k[0] == '$' && '0' <= k[1] <= '9'
  }

  predicate IsConfig(m: map<string, string>) {
    forall k :: k in m ==> IsKey(k) && '$' !in m[k]
  }

  /** `strings.Replace(s, key, val, -1)`. */
  function ReplaceAll(s: string, key: string, val: string): string
    requires key != ""
    decreases |s|
  {
    if s == "" then ""
    else if key <= s then val + ReplaceAll(s[|key|..], key, val)
    else [s[0]] + ReplaceAll(s[1..], key, val)
  }

  predicate Walks(order: seq<string>, m: map<string, string>) {
    forall i :: 0 <= i < |order| ==> order[i] in m && order[i] != ""
  }

  /** The loop over the map, for one iteration order. */
  function ReplaceInOrder(t: string, m: map<string, string>, order: seq<string>): string
    requires Walks(order, m)
    decreases |order|
  {
    if order == [] then t
    else ReplaceInOrder(ReplaceAll(t, order[0], m[order[0]]), m, order[1..])
  }

  ghost predicate IsOrder(order: seq<string>, keys: set<string>) {
    && (forall k :: k in order <==> k in keys)
    && forall i, j :: 0 <= i < j < |order| ==> order[i] != order[j]
  }

  /** The template read once from left to right, every placeholder giving its value. */
  function Simultaneous(t: string, m: map<string, string>): string
    decreases |t|
  {
    if t == "" then ""
    else if |t| >= 2 && t[..2] in m then m[t[..2]] + Simultaneous(t[2..], m)
    else [t[0]] + Simultaneous(t[1..], m)
  }

  predicate StartsWithKey(t: string, keys: set<string>) {
    |t| >= 2 && t[..2] in keys
  }

  /** No dollar sign stands right before a placeholder. */
  predicate Safe(t: string, keys: set<string>) {
    t == "" || (!(t[0] == '$' && StartsWithKey(t[1..], keys)) && Safe(t[1..], keys))
  }

  lemma OrderWalks(order: seq<string>, m: map<string, string>)
    requires IsConfig(m) && IsOrder(order, m.Keys)
    ensures Walks(order, m)
  {
    forall i | 0 <= i < |order| ensures order[i] in m && order[i] != "" { assert order[i] in order; }
  }

  // ------------------------------------------------------------- one replacement

  lemma {:induction false} SafeBehindPlain(v: string, t: string, keys: set<string>)
    requires '$' !in v && Safe(t, keys)
    ensures Safe(v + t, keys)
  {
    if v == "" {
      assert v + t == t;
    } else {
      SafeBehindPlain(v[1..], t, keys);
      assert (v + t)[1..] == v[1..] + t;
    }
  }

  lemma PlainInFront(c: char, t: string, m: map<string, string>)
    requires IsConfig(m) && c != '$'
    ensures Simultaneous([c] + t, m) == [c] + Simultaneous(t, m)
  {
    var s := [c] + t;
    assert s[1..] == t;
    if |s| >= 2 { assert s[..2][0] == c; }
  }

  lemma {:induction false} SimultaneousBehindPlain(v: string, t: string, m: map<string, string>)
    requires IsConfig(m) && '$' !in v
    ensures Simultaneous(v + t, m) == v + Simultaneous(t, m)
  {
    hide Simultaneous, IsConfig;
    if v == "" {
      assert v + t == t;
    } else {
      SimultaneousBehindPlain(v[1..], t, m);
      PlainInFront(v[0], v[1..] + t, m);
      assert v + t == [v[0]] + (v[1..] + t);
    }
  }

  /** What a replacement leaves at the front of a text that does not start with the key. */
  lemma ReplaceFront(t: string, k: string, v: string)
    requires IsKey(k) && t != "" && !(k <= t)
    ensures var r := ReplaceAll(t, k, v); r != "" && r[0] == t[0] && r[1..] == ReplaceAll(t[1..], k, v)
  {
  }

  lemma KeyInFront(t: string, k: string)
    requires IsKey(k)
    ensures k <= t <==> |t| >= 2 && t[..2] == k
  {
  }

  /** A text that holds back a dollar sign still does so after a replacement. */
  lemma NoKeyAppears(t: string, k: string, v: string, keys: set<string>)
    requires (forall x :: x in keys ==> IsKey(x)) && k in keys && IsKey(k)
    requires t != "" && t[0] == '$' && Safe(t, keys)
    ensures !StartsWithKey(ReplaceAll(t[1..], k, v), keys)
  {
    var u := t[1..];
    if u != "" {
      KeyInFront(u, k);
      ReplaceFront(u, k, v);
      var r := ReplaceAll(u, k, v);
      if u[0] == '$' && |u| >= 2 {
        KeyInFront(u[1..], k);
        ReplaceFront(u[1..], k, v);
        assert r[..2] == u[..2];
      } else if u[0] != '$' && |r| >= 2 {
        assert r[..2][0] == u[0];
      }
    }
  }

  lemma {:induction false} SafeAfter(t: string, k: string, v: string, keys: set<string>)
    requires (forall x :: x in keys ==> IsKey(x)) && k in keys && IsKey(k) && '$' !in v
    requires Safe(t, keys)
    ensures Safe(ReplaceAll(t, k, v), keys)
    decreases |t|
  {
    if t != "" {
      if k <= t {
        assert t[2..] == t[1..][1..];
        SafeAfter(t[2..], k, v, keys);
        SafeBehindPlain(v, ReplaceAll(t[2..], k, v), keys);
      } else {
        SafeAfter(t[1..], k, v, keys);
        if t[0] == '$' { NoKeyAppears(t, k, v, keys); }
        var r := ReplaceAll(t, k, v);
        assert r[1..] == ReplaceAll(t[1..], k, v);
      }
    }
  }

  /** Replacing one key first and the others simultaneously is replacing all of them. */
  lemma {:induction false} OneFirst(t: string, k: string, m: map<string, string>)
    requires IsConfig(m) && k in m && Safe(t, m.Keys)
    ensures Simultaneous(ReplaceAll(t, k, m[k]), m - {k}) == Simultaneous(t, m)
    decreases |t|
  {
    var v, rest := m[k], m - {k};
    if t != "" {
      KeyInFront(t, k);
      if k <= t {
        assert t[2..] == t[1..][1..];
        OneFirst(t[2..], k, m);
        SimultaneousBehindPlain(v, ReplaceAll(t[2..], k, v), rest);
      } else {
        var r := ReplaceAll(t, k, v);
        ReplaceFront(t, k, v);
        OneFirst(t[1..], k, m);
        if StartsWithKey(t, m.Keys) {
          assert t[2..] == t[1..][1..] && Safe(t[2..], m.Keys);
          assert t[..2] in m && t[1] != '$';
          OneFirst(t[2..], k, m);
          KeyInFront(t[1..], k);
          ReplaceFront(t[1..], k, v);
          assert r[..2] == t[..2];
          assert r[2..] == r[1..][1..] == ReplaceAll(t[2..], k, v);
        } else if t[0] == '$' {
          NothingFormed(t, k, m);
        } else if |r| >= 2 {
          assert r[..2][0] == t[0];
        }
      }
    }
  }

  /** A dollar sign that starts no placeholder starts none after a replacement. */
  lemma NothingFormed(t: string, k: string, m: map<string, string>)
    requires IsConfig(m) && k in m && Safe(t, m.Keys)
    requires t != "" && t[0] == '$' && !StartsWithKey(t, m.Keys)
    ensures !StartsWithKey(ReplaceAll(t, k, m[k]), m.Keys)
  {
    var r := ReplaceAll(t, k, m[k]);
    KeyInFront(t, k);
    ReplaceFront(t, k, m[k]);
    if |t| >= 2 {
      KeyInFront(t[1..], k);
      ReplaceFront(t[1..], k, m[k]);
      assert r[..2] == t[..2];
    }
  }

  lemma {:induction false} NothingToReplace(t: string)
    ensures Simultaneous(t, map[]) == t
  {
    if t != "" { NothingToReplace(t[1..]); }
  }

  /** In whatever order the map is walked, the loop yields the simultaneous substitution,
      as long as no dollar sign stands before a placeholder. */
  lemma {:induction false} OrderFree(t: string, m: map<string, string>, order: seq<string>)
    requires IsConfig(m) && Safe(t, m.Keys) && IsOrder(order, m.Keys)
    ensures Walks(order, m) && ReplaceInOrder(t, m, order) == Simultaneous(t, m)
    decreases |order|
  {
    OrderWalks(order, m);
    if order == [] {
      assert m == map[];
      NothingToReplace(t);
    } else {
      hide Simultaneous, Safe, ReplaceAll;
      var k, rest := order[0], order[1..];
      var t', m' := ReplaceAll(t, k, m[k]), m - {k};
      OneFirst(t, k, m);
      SafeAfter(t, k, m[k], m.Keys);
      FewerKeys(t', m.Keys, m'.Keys);
      OneLess(order, m.Keys);
      OrderFree(t', m', rest);
      SameEntries(t', m, m', rest);
    }
  }

  lemma OneLess(order: seq<string>, keys: set<string>)
    requires order != [] && IsOrder(order, keys)
    ensures IsOrder(order[1..], keys - {order[0]})
  {
    assert order == [order[0]] + order[1..];
  }

  lemma {:induction false} FewerKeys(t: string, keys: set<string>, fewer: set<string>)
    requires fewer <= keys && Safe(t, keys)
    ensures Safe(t, fewer)
  {
    if t != "" { FewerKeys(t[1..], keys, fewer); }
  }

  lemma {:induction false} SameEntries(t: string, m: map<string, string>, m': map<string, string>, order: seq<string>)
    requires Walks(order, m) && Walks(order, m')
    requires forall k :: k in m && k in m' ==> m[k] == m'[k]
    ensures ReplaceInOrder(t, m, order) == ReplaceInOrder(t, m', order)
    decreases |order|
  {
    if order != [] {
      SameEntries(ReplaceAll(t, order[0], m[order[0]]), m, m', order[1..]);
    }
  }

  // --------------------------------------------------------- exactly when it holds

  predicate Has(t: string, k: string) {
    t != "" && (k <= t || Has(t[1..], k))
  }

  /** A dollar sign right before placeholder `k`. */
  predicate HasGuarded(t: string, k: string) {
    Has(t, "$" + k)
  }

  lemma {:induction false} UnsafeHasGuarded(t: string, keys: set<string>) returns (k: string)
    requires (forall x :: x in keys ==> IsKey(x)) && !Safe(t, keys)
    ensures k in keys && HasGuarded(t, k)
  {
    if t[0] == '$' && StartsWithKey(t[1..], keys) {
      k := t[1..][..2];
      assert t[..3] == "$" + k;
    } else {
      k := UnsafeHasGuarded(t[1..], keys);
    }
  }

  lemma {:induction false} HasBehindPlain(v: string, t: string, k: string)
    requires '$' !in v && k != "" && k[0] == '$'
    ensures Has(v + t, k) <==> Has(t, k)
  {
    if v == "" {
      assert v + t == t;
    } else {
      HasBehindPlain(v[1..], t, k);
      assert (v + t)[1..] == v[1..] + t;
    }
  }

  /** Putting a letter for other placeholders neither makes nor removes one. */
  lemma {:induction false} HasAfterOther(t: string, e: string, f: string)
    requires IsKey(e) && IsKey(f) && e != f
    ensures Has(ReplaceAll(t, f, "x"), e) <==> Has(t, e)
    decreases |t|
  {
    if t != "" {
      var r := ReplaceAll(t, f, "x");
      if f <= t {
        HasAfterOther(t[2..], e, f);
        HasBehindPlain("x", ReplaceAll(t[2..], f, "x"), e);
        assert t[1..] == [t[1]] + t[2..];
        HasBehindPlain([t[1]], t[2..], e);
      } else {
        HasAfterOther(t[1..], e, f);
        assert r[1..] == ReplaceAll(t[1..], f, "x");
        FrontKept(t, e, f);
      }
    }
  }

  lemma FrontKept(t: string, e: string, f: string)
    requires IsKey(e) && IsKey(f) && e != f && t != "" && !(f <= t)
    ensures e <= ReplaceAll(t, f, "x") <==> e <= t
  {
    var r := ReplaceAll(t, f, "x");
    ReplaceFront(t, f, "x");
    if |t| >= 2 {
      if f <= t[1..] {
        assert r[1] == 'x' && t[1] == '$';
      } else {
        ReplaceFront(t[1..], f, "x");
        assert r[1] == t[1];
      }
    }
  }

  lemma {:induction false} GoneAfter(t: string, e: string)
    requires IsKey(e)
    ensures !Has(ReplaceAll(t, e, "x"), e)
    decreases |t|
  {
    if t != "" {
      var r := ReplaceAll(t, e, "x");
      if e <= t {
        GoneAfter(t[2..], e);
        HasBehindPlain("x", ReplaceAll(t[2..], e, "x"), e);
      } else {
        GoneAfter(t[1..], e);
        assert r[1..] == ReplaceAll(t[1..], e, "x");
        if |t| >= 2 {
          if e <= t[1..] { assert r[1] == 'x'; } else { ReplaceFront(t[1..], e, "x"); assert r[1] == t[1]; }
        }
      }
    }
  }

  lemma {:induction false} GuardedKept(t: string, d: string, e: string)
    requires IsKey(d) && IsKey(e) && d != e && HasGuarded(t, d)
    ensures HasGuarded(ReplaceAll(t, e, "x"), d)
    decreases |t|
  {
    var g := "$" + d;
    var r := ReplaceAll(t, e, "x");
    if g <= t {
      assert t[0] == '$' && t[1] == '$' && t[1..3] == d;
      ReplaceFront(t, e, "x");
      assert t[1..][0] == '$' && t[1..][1] == d[1];
      ReplaceFront(t[1..], e, "x");
      ReplaceFront(t[1..][1..], e, "x");
      assert r[2] == t[2];
      assert g <= r;
    } else if e <= t {
      assert t[1..] == [t[1]] + t[2..];
      HasBehindPlain([t[1]], t[2..], g);
      GuardedKept(t[2..], d, e);
      HasBehindPlain("x", ReplaceAll(t[2..], e, "x"), g);
    } else {
      GuardedKept(t[1..], d, e);
      assert r[1..] == ReplaceAll(t[1..], e, "x");
    }
  }

  /** The digit of another placeholder, put behind a dollar sign, makes that placeholder. */
  lemma {:induction false} GuardedForms(t: string, d: string, e: string)
    requires IsKey(d) && IsKey(e) && HasGuarded(t, d)
    ensures Has(ReplaceAll(t, d, e[1..]), e)
    decreases |t|
  {
    var g := "$" + d;
    var v := e[1..];
    var r := ReplaceAll(t, d, v);
    if g <= t {
      assert t[0] == '$' && t[1] == '$' && t[1..3] == d;
      ReplaceFront(t, d, v);
      assert t[1..][..2] == d;
      assert d <= t[1..];
      assert r[1..] == v + ReplaceAll(t[1..][2..], d, v);
      assert r[..2] == e;
    } else if d <= t {
      assert t[1..] == [t[1]] + t[2..];
      HasBehindPlain([t[1]], t[2..], g);
      GuardedForms(t[2..], d, e);
      HasBehindPlain(v, ReplaceAll(t[2..], d, v), e);
    } else {
      GuardedForms(t[1..], d, e);
      assert r[1..] == ReplaceAll(t[1..], d, v);
    }
  }

  /** The values that tell two orders apart: `d` stands for the digit of `e`, the rest for a letter. */
  function Witness(keys: set<string>, d: string, e: string): map<string, string>
    requires |e| == 2
  {
    map k | k in keys :: if k == d then e[1..] else "x"
  }

  lemma {:induction false} RestKeeps(t: string, m: map<string, string>, order: seq<string>, e: string)
    requires IsKey(e) && Walks(order, m)
    requires forall i :: 0 <= i < |order| ==> IsKey(order[i]) && order[i] != e && m[order[i]] == "x"
    ensures Has(ReplaceInOrder(t, m, order), e) <==> Has(t, e)
    decreases |order|
  {
    if order != [] {
      HasAfterOther(t, e, order[0]);
      RestKeeps(ReplaceAll(t, order[0], "x"), m, order[1..], e);
    }
  }

  lemma {:induction false} SomeOrder(keys: set<string>) returns (order: seq<string>)
    ensures IsOrder(order, keys)
    decreases keys
  {
    if keys == {} {
      order := [];
    } else {
      var k :| k in keys;
      var rest := SomeOrder(keys - {k});
      order := [k] + rest;
    }
  }

  lemma TwoFirst(t: string, m: map<string, string>, a: string, b: string, rest: seq<string>)
    requires a != "" && b != "" && a in m && b in m && Walks(rest, m)
    ensures ReplaceInOrder(t, m, [a, b] + rest) ==
            ReplaceInOrder(ReplaceAll(ReplaceAll(t, a, m[a]), b, m[b]), m, rest)
  {
    var order := [a, b] + rest;
    assert order[1..] == [b] + rest;
    assert ([b] + rest)[1..] == rest;
  }

  /** The one order leaves no `e` behind, the other one does. */
  lemma OrdersDiffer(t: string, m: map<string, string>, d: string, e: string, rest: seq<string>)
    requires IsConfig(m) && d in m && e in m && d != e && IsKey(d) && IsKey(e)
    requires m[d] == e[1..] && m[e] == "x" && HasGuarded(t, d)
    requires Walks(rest, m) && forall i :: 0 <= i < |rest| ==> rest[i] != e && m[rest[i]] == "x"
    requires Walks([d, e] + rest, m) && Walks([e, d] + rest, m)
    ensures ReplaceInOrder(t, m, [d, e] + rest) != ReplaceInOrder(t, m, [e, d] + rest)
  {
    assert d != "" && e != "";
    hide Has, ReplaceAll, ReplaceInOrder, IsKey, HasGuarded, Walks;
    var v := m[d];
    assert forall i :: 0 <= i < |rest| ==> IsKey(rest[i]) by { WalksKeys(m, rest); }
    TwoFirst(t, m, d, e, rest);
    TwoFirst(t, m, e, d, rest);
    GoneAfter(ReplaceAll(t, d, v), e);
    RestKeeps(ReplaceAll(ReplaceAll(t, d, v), e, "x"), m, rest, e);
    GuardedKept(t, d, e);
    GuardedForms(ReplaceAll(t, e, "x"), d, e);
    RestKeeps(ReplaceAll(ReplaceAll(t, e, "x"), d, v), m, rest, e);
  }

  lemma WalksKeys(m: map<string, string>, rest: seq<string>)
    requires IsConfig(m) && Walks(rest, m)
    ensures forall i :: 0 <= i < |rest| ==> IsKey(rest[i])
  {
  }

  lemma TwoMore(a: string, b: string, rest: seq<string>, keys: set<string>)
    requires a != b && a in keys && b in keys && IsOrder(rest, keys - {a, b})
    ensures IsOrder([a, b] + rest, keys)
  {
    forall i | 0 <= i < |rest| ensures rest[i] != a && rest[i] != b { assert rest[i] in rest; }
  }

  /** A dollar sign before a placeholder lets the order of the map show through. */
  lemma OrderShows(t: string, keys: set<string>) returns (m: map<string, string>, o1: seq<string>, o2: seq<string>)
    requires (forall k :: k in keys ==> IsKey(k)) && |keys| >= 2 && !Safe(t, keys)
    ensures m.Keys == keys && IsConfig(m) && IsOrder(o1, keys) && IsOrder(o2, keys)
    ensures Walks(o1, m) && Walks(o2, m)
    ensures ReplaceInOrder(t, m, o1) != ReplaceInOrder(t, m, o2)
  {
    hide Safe, HasGuarded, ReplaceInOrder, Witness, Walks, IsConfig;
    var d := UnsafeHasGuarded(t, keys);
    var others := keys - {d};
    assert |others| == |keys| - 1;
    var e :| e in others;
    m := Witness(keys, d, e);
    var rest := SomeOrder(keys - {d, e});
    o1, o2 := [d, e] + rest, [e, d] + rest;
    TwoMore(d, e, rest, keys);
    TwoMore(e, d, rest, keys);
    WitnessOf(keys, d, e, rest);
    OrderWalks(o1, m);
    OrderWalks(o2, m);
    OrdersDiffer(t, m, d, e, rest);
  }

  lemma WitnessOf(keys: set<string>, d: string, e: string, rest: seq<string>)
    requires (forall k :: k in keys ==> IsKey(k)) && d in keys && e in keys && d != e && IsKey(e)
    requires IsOrder(rest, keys - {d, e})
    ensures var m := Witness(keys, d, e);
      && m.Keys == keys && IsConfig(m) && m[d] == e[1..] && m[e] == "x" && Walks(rest, m)
      && forall i :: 0 <= i < |rest| ==> rest[i] != e && m[rest[i]] == "x"
  {
    assert e[1..][0] != '$';
    assert forall i :: 0 <= i < |rest| ==> rest[i] in rest;
  }

  ghost predicate SameInEveryOrder(t: string, m: map<string, string>)
    requires IsConfig(m)
  {
    forall o1: seq<string>, o2: seq<string> | IsOrder(o1, m.Keys) && IsOrder(o2, m.Keys) ::
      Walks(o1, m) && Walks(o2, m) && ReplaceInOrder(t, m, o1) == ReplaceInOrder(t, m, o2)
  }

  /** For two or more placeholders, the substitution of a template is independent of the map's
      order for all values exactly when no dollar sign stands right before a placeholder. */
  lemma OrderFreeExactly(t: string, keys: set<string>)
    requires (forall k :: k in keys ==> IsKey(k)) && |keys| >= 2
    ensures Safe(t, keys) <==>
            forall m: map<string, string> | m.Keys == keys && IsConfig(m) :: SameInEveryOrder(t, m)
  {
    if Safe(t, keys) {
      forall m: map<string, string> | m.Keys == keys && IsConfig(m) ensures SameInEveryOrder(t, m) {
        forall o1: seq<string>, o2: seq<string> | IsOrder(o1, m.Keys) && IsOrder(o2, m.Keys)
          ensures Walks(o1, m) && Walks(o2, m) && ReplaceInOrder(t, m, o1) == ReplaceInOrder(t, m, o2)
        {
          OrderFree(t, m, o1);
          OrderFree(t, m, o2);
        }
      }
    } else {
      var m, o1, o2 := OrderShows(t, keys);
      assert !SameInEveryOrder(t, m);
    }
  }

  /** Templates without two dollar signs in a row are among the safe ones. */
  lemma {:induction false} NoDoubleDollarSafe(t: string, keys: set<string>)
    requires forall k :: k in keys ==> IsKey(k)
    requires forall i, j :: 0 <= i < j == i + 1 < |t| ==> !(t[i] == '$' && t[j] == '$')
    ensures Safe(t, keys)
  {
    if t != "" {
      var u := t[1..];
      assert forall i :: 0 <= i < |u| ==> u[i] == t[i + 1];
      NoDoubleDollarSafe(u, keys);
      if StartsWithKey(u, keys) { assert u[..2][0] == t[1]; }
    }
  }
}
