/** Sums over the entries of a map. */
module Totals {
  ghost function Pick<V>(m: map<nat, V>): (p: nat)
    requires |m| != 0
    ensures p in m
  {
    assert m.Keys != {};
    var p :| p in m;
    p
  }

  ghost function Total<V(!new)>(m: map<nat, V>, f: V -> nat): nat
    decreases |m|
  {
    if |m| == 0 then 0 else
      assert |m - {Pick(m)}| < |m| by { SizeMinus(m, Pick(m)); }
      f(m[Pick(m)]) + Total(m - {Pick(m)}, f)
  }

  lemma SizeMinus<V>(m: map<nat, V>, p: nat)
    requires p in m
    ensures |m - {p}| == |m| - 1
  {
    assert (m - {p}).Keys == m.Keys - {p};
    assert |m - {p}| == |(m - {p}).Keys| && |m| == |m.Keys|;
  }

  lemma TotalUnfold<V(!new)>(m: map<nat, V>, f: V -> nat)
    requires |m| != 0
    ensures Total(m, f) == f(m[Pick(m)]) + Total(m - {Pick(m)}, f)
  {}

  lemma {:induction false} TotalTake<V(!new)>(m: map<nat, V>, f: V -> nat, p: nat)
    requires p in m
    ensures Total(m, f) == f(m[p]) + Total(m - {p}, f)
    decreases |m|
  {
    hide Total;
    SizeMinus(m, p);
    TotalUnfold(m, f);
    var q := Pick(m);
    if q != p {
      SizeMinus(m, q);
      TotalTake(m - {q}, f, p);
      TotalTake(m - {p}, f, q);
      assert m - {q} - {p} == m - {p} - {q};
    }
  }

  lemma TotalAdd<V(!new)>(m: map<nat, V>, f: V -> nat, p: nat, v: V)
    requires p !in m
    ensures Total(m[p := v], f) == f(v) + Total(m, f)
  {
    TotalTake(m[p := v], f, p);
    assert m[p := v] - {p} == m;
  }

  lemma TotalSet<V(!new)>(m: map<nat, V>, f: V -> nat, p: nat, v: V)
    requires p in m
    ensures Total(m[p := v], f) + f(m[p]) == f(v) + Total(m, f)
  {
    TotalTake(m[p := v], f, p);
    TotalTake(m, f, p);
    assert m[p := v] - {p} == m - {p};
  }

  lemma {:induction false} TotalMono<V(!new)>(m: map<nat, V>, f: V -> nat, g: V -> nat)
    requires forall p | p in m :: f(m[p]) <= g(m[p])
    ensures Total(m, f) <= Total(m, g)
    decreases |m|
  {
    if |m| != 0 {
      var p := Pick(m);
      SizeMinus(m, p);
      TotalTake(m, f, p);
      TotalTake(m, g, p);
      TotalMono(m - {p}, f, g);
    }
  }

  lemma TotalNone<V(!new)>(m: map<nat, V>, f: V -> nat)
    requires m == map[]
    ensures Total(m, f) == 0
  {}

  lemma {:induction false} TotalZero<V(!new)>(m: map<nat, V>, f: V -> nat)
    ensures Total(m, f) == 0 <==> forall p | p in m :: f(m[p]) == 0
    decreases |m|
  {
    if |m| != 0 {
      var p := Pick(m);
      SizeMinus(m, p);
      TotalTake(m, f, p);
      TotalZero(m - {p}, f);
      assert forall q | q in m && q != p :: q in m - {p};
    }
  }

  ghost function Only<V>(m: map<nat, V>, keys: set<nat>): map<nat, V>
  {
    map p | p in m && p in keys :: m[p]
  }

  ghost function Except<V>(m: map<nat, V>, keys: set<nat>): map<nat, V>
  {
    map p | p in m && p !in keys :: m[p]
  }

  lemma {:induction false} TotalSplit<V(!new)>(m: map<nat, V>, f: V -> nat, keys: set<nat>)
    ensures Total(m, f) == Total(Only(m, keys), f) + Total(Except(m, keys), f)
    decreases |m|
  {
    if |m| == 0 {
      assert Only(m, keys) == map[] && Except(m, keys) == map[];
    } else {
      hide Total, Only, Except;
      var p := Pick(m);
      SizeMinus(m, p);
      TotalTake(m, f, p);
      TotalSplit(m - {p}, f, keys);
      OnlyTake(m, keys, p);
      if p in keys {
        TotalTake(Only(m, keys), f, p);
      } else {
        TotalTake(Except(m, keys), f, p);
      }
    }
  }

  lemma OnlyTake<V>(m: map<nat, V>, keys: set<nat>, p: nat)
    requires p in m
    ensures p in keys ==>
      && p in Only(m, keys) && Only(m, keys)[p] == m[p] && Only(m, keys) - {p} == Only(m - {p}, keys)
      && Except(m, keys) == Except(m - {p}, keys)
    ensures p !in keys ==>
      && p in Except(m, keys) && Except(m, keys)[p] == m[p] && Except(m, keys) - {p} == Except(m - {p}, keys)
      && Only(m, keys) == Only(m - {p}, keys)
  {}

  lemma TotalOnlyAdd<V(!new)>(m: map<nat, V>, f: V -> nat, keys: set<nat>, p: nat)
    requires p in m && p !in keys
    ensures Total(Only(m, keys + {p}), f) == Total(Only(m, keys), f) + f(m[p])
  {
    assert Only(m, keys + {p}) == Only(m, keys)[p := m[p]];
    TotalAdd(Only(m, keys), f, p, m[p]);
  }

  /** The chosen entries carry the whole total exactly when the others carry nothing. */
  lemma TotalAllOf<V(!new)>(m: map<nat, V>, f: V -> nat, keys: set<nat>)
    ensures Total(Only(m, keys), f) == Total(m, f) <==> forall p | p in m && p !in keys :: f(m[p]) == 0
  {
    TotalSplit(m, f, keys);
    TotalZero(Except(m, keys), f);
    assert forall p | p in m && p !in keys :: p in Except(m, keys) && Except(m, keys)[p] == m[p];
  }
}
