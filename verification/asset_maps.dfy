/** The two shapes of a multi-asset value: units to quantities, and policies to names to
    quantities; and when going one way and back again changes nothing. */
module AssetMaps {

  type Assets = map<string, int>
  type Nested = map<string, map<string, int>>
  type Pair = (string, string)

  const POLICY_LENGTH := 56

  /** `fromUnit`, with lovelace under the empty policy and a missing name as the empty one. */
  function Split(unit: string): Pair {
    if unit == "lovelace" then ("", "")
    else if |unit| <= POLICY_LENGTH then (unit, "")
    else (unit[..POLICY_LENGTH], unit[POLICY_LENGTH..])
  }

  function Join(p: Pair): string {
    (if p.0 == "" then "lovelace" else p.0) + p.1
  }

  /** A unit is the 56 digits of a policy and a name, or one of them is missing, or it is lovelace,
      which is under two empty names. */
  lemma Units(p: string, n: string)
    ensures |p| == 56 ==> Split(p + n) == (p, n)
    ensures |p| < 56 && p != "lovelace" ==> Split(p) == (p, "")
    ensures Split("lovelace") == ("", "")
    ensures p != "" ==> Join((p, n)) == p + n
    ensures Join(("", n)) == "lovelace" + n
  {
    if |p| == 56 { SplitAt(p, n); }
  }

  /** A nested map by policy and name. */
  function Pairs(v: Nested): map<Pair, int> {
    map p, n | p in v && n in v[p] :: (p, n) := v[p][n]
  }

  predicate NoEmpty(v: Nested) {
    forall p | p in v :: v[p] != map[]
  }

  /** `b` holds what `a` holds, under the images of its keys; where two keys have the same image
      one of their values is there. */
  ghost predicate Image<K(!new), L(!new)>(a: map<K, int>, b: map<L, int>, f: K -> L) {
    && (forall k | k in a :: f(k) in b)
    && (forall l | l in b :: exists k :: k in a && f(k) == l && b[l] == a[k])
  }

  ghost predicate NestOf(a: Assets, v: Nested) {
    NoEmpty(v) && Image(a, Pairs(v), Split)
  }

  ghost predicate FlatOf(v: Nested, a: Assets) {
    Image(Pairs(v), a, Join)
  }

  lemma ImageMore<K(!new), L(!new)>(a: map<K, int>, b: map<L, int>, f: K -> L, k: K, x: int)
    requires Image(a, b, f) && k !in a
    ensures Image(a[k := x], b[f(k) := x], f)
  {
    var a', b' := a[k := x], b[f(k) := x];
    forall l | l in b' ensures exists j :: j in a' && f(j) == l && b'[l] == a'[j] {
      if l == f(k) {
        assert k in a';
      } else {
        var j :| j in a && f(j) == l && b[l] == a[j];
        assert j in a' && a'[j] == a[j];
      }
    }
  }

  function Put(v: Nested, pair: Pair, x: int): Nested {
    v[pair.0 := (if pair.0 in v then v[pair.0] else map[])[pair.1 := x]]
  }

  /** The nested map after some units, in this order. */
  function NestAll(a: Assets, units: seq<string>): Nested
    requires forall u | u in units :: u in a
  {
    if units == [] then map[]
    else
      var n := |units| - 1;
      Put(NestAll(a, units[..n]), Split(units[n]), a[units[n]])
  }

  /** The flat map after some policies and names, in this order. */
  function FlatAll(b: map<Pair, int>, pairs: seq<Pair>): Assets
    requires forall x | x in pairs :: x in b
  {
    if pairs == [] then map[]
    else
      var n := |pairs| - 1;
      FlatAll(b, pairs[..n])[Join(pairs[n]) := b[pairs[n]]]
  }

  /** `assetsToDataPairs`, in whatever order the entries come. */
  method AssetsToDataPairs(a: Assets) returns (v: Nested)
    ensures NestOf(a, v)
  {
    v := map[];
    var todo := a.Keys;
    ghost var units: seq<string> := [];
    while todo != {}
      invariant (forall u | u in units :: u in a && u !in todo) && (forall u | u in a && u !in todo :: u in units)
      invariant todo <= a.Keys && Distinct(units) && v == NestAll(a, units)
      decreases |todo|
    {
      var u :| u in todo;
      todo := todo - {u};
      var (policy, name) := Split(u);
      v := v[policy := (if policy in v then v[policy] else map[])[name := a[u]]];
      assert (units + [u])[..|units|] == units;
      units := units + [u];
    }
    NestAllOf(a, units);
  }

  predicate Distinct<T(==)>(s: seq<T>) {
    forall i, j | 0 <= i < j < |s| :: s[i] != s[j]
  }

  /** Some entries of a map, built up in the order of their keys. */
  function Listed<K(!new)>(a: map<K, int>, keys: seq<K>): (r: map<K, int>)
    requires forall k | k in keys :: k in a
    ensures forall k :: (k in r <==> k in keys) && (k in r ==> r[k] == a[k])
  {
    if keys == [] then map[] else Listed(a, keys[..|keys| - 1])[keys[|keys| - 1] := a[keys[|keys| - 1]]]
  }

  lemma {:induction false} NestAllSome(a: Assets, units: seq<string>)
    requires Distinct(units) && forall u | u in units :: u in a
    ensures NoEmpty(NestAll(a, units)) && Image(Listed(a, units), Pairs(NestAll(a, units)), Split)
  {
    if units != [] {
      var n := |units| - 1;
      NestAllSome(a, units[..n]);
      assert units[n] !in units[..n];
      PairsPut(NestAll(a, units[..n]), Split(units[n]), a[units[n]]);
      ImageMore(Listed(a, units[..n]), Pairs(NestAll(a, units[..n])), Split, units[n], a[units[n]]);
    }
  }

  lemma NestAllOf(a: Assets, units: seq<string>)
    requires Distinct(units) && (forall u | u in units :: u in a) && (forall u | u in a :: u in units)
    ensures NestOf(a, NestAll(a, units))
  {
    NestAllSome(a, units);
    AllListed(a, units);
  }

  lemma PairsPut(v: Nested, pair: Pair, x: int)
    ensures Pairs(Put(v, pair, x)) == Pairs(v)[pair := x]
  {
    var l, r := Pairs(Put(v, pair, x)), Pairs(v)[pair := x];
    forall k ensures k in l <==> k in r {
      InPairs(Put(v, pair, x), k);
      InPairs(v, k);
    }
    forall k | k in l ensures l[k] == r[k] {
      InPairs(Put(v, pair, x), k);
      InPairs(v, k);
    }
  }

  lemma InPairs(v: Nested, k: Pair)
    ensures k in Pairs(v) <==> k.0 in v && k.1 in v[k.0]
    ensures k in Pairs(v) ==> Pairs(v)[k] == v[k.0][k.1]
  {
  }

  /** `dataPairsToAssets`, in whatever order the policies and names come. */
  method DataPairsToAssets(v: Nested) returns (a: Assets)
    ensures FlatOf(v, a)
  {
    a := map[];
    var todo := v.Keys;
    ghost var pairs: seq<Pair> := [];
    while todo != {}
      invariant todo <= v.Keys && Covers(v, v.Keys - todo, pairs) && a == FlatAll(Pairs(v), pairs)
      decreases |todo|
    {
      var p :| p in todo;
      todo := todo - {p};
      a, pairs := AddPolicy(v, p, v.Keys - todo - {p}, a, pairs);
      assert v.Keys - todo - {p} + {p} == v.Keys - todo;
    }
    assert v.Keys - todo == v.Keys;
    FlatAllOf(v, pairs);
  }

  /** The pairs under these policies, each once. */
  ghost predicate Covers(v: Nested, policies: set<string>, pairs: seq<Pair>) {
    && Distinct(pairs) && (forall x | x in pairs :: x in Pairs(v) && x.0 in policies)
    && (forall x | x in Pairs(v) && x.0 in policies :: x in pairs)
  }

  /** The inner loop, over the names of one policy. */
  method AddPolicy(v: Nested, p: string, ghost before: set<string>, a0: Assets, ghost pairs0: seq<Pair>)
    returns (a: Assets, ghost pairs: seq<Pair>)
    requires p in v && p !in before && Covers(v, before, pairs0) && a0 == FlatAll(Pairs(v), pairs0)
    ensures Covers(v, before + {p}, pairs) && a == FlatAll(Pairs(v), pairs)
  {
    a, pairs := a0, pairs0;
    var todo := v[p].Keys;
    PartStart(v, before, p, pairs);
    while todo != {}
      invariant todo <= v[p].Keys && Part(v, before, p, todo, pairs) && a == FlatAll(Pairs(v), pairs)
      decreases |todo|
    {
      var n :| n in todo;
      InPairs(v, (p, n));
      PartMore(v, before, p, todo, pairs, n);
      a := a[Join((p, n)) := v[p][n]];
      assert (pairs + [(p, n)])[..|pairs|] == pairs;
      pairs := pairs + [(p, n)];
      todo := todo - {n};
    }
    PartEnd(v, before, p, pairs);
  }

  /** The policies before, and all names of this one but those to do. */
  ghost predicate Part(v: Nested, before: set<string>, p: string, todo: set<string>, pairs: seq<Pair>) {
    && Distinct(pairs)
    && (forall x | x in pairs :: x in Pairs(v) && (x.0 in before || (x.0 == p && x.1 !in todo)))
    && (forall x | x in Pairs(v) && (x.0 in before || (x.0 == p && x.1 !in todo)) :: x in pairs)
  }

  lemma PartStart(v: Nested, before: set<string>, p: string, pairs: seq<Pair>)
    requires p in v && p !in before && Covers(v, before, pairs)
    ensures Part(v, before, p, v[p].Keys, pairs)
  {
    forall x | x in Pairs(v) ensures x.1 in v[x.0] { InPairs(v, x); }
  }

  lemma PartMore(v: Nested, before: set<string>, p: string, todo: set<string>, pairs: seq<Pair>, n: string)
    requires p in v && p !in before && n in todo && (p, n) in Pairs(v) && Part(v, before, p, todo, pairs)
    ensures Part(v, before, p, todo - {n}, pairs + [(p, n)])
  {
    assert (p, n) !in pairs;
  }

  lemma PartEnd(v: Nested, before: set<string>, p: string, pairs: seq<Pair>)
    requires Part(v, before, p, {}, pairs)
    ensures Covers(v, before + {p}, pairs)
  {
  }

  lemma {:induction false} FlatAllSome(b: map<Pair, int>, pairs: seq<Pair>)
    requires Distinct(pairs) && forall x | x in pairs :: x in b
    ensures Image(Listed(b, pairs), FlatAll(b, pairs), Join)
  {
    if pairs != [] {
      var n := |pairs| - 1;
      FlatAllSome(b, pairs[..n]);
      assert pairs[n] !in pairs[..n];
      ImageMore(Listed(b, pairs[..n]), FlatAll(b, pairs[..n]), Join, pairs[n], b[pairs[n]]);
    }
  }

  lemma FlatAllOf(v: Nested, pairs: seq<Pair>)
    requires Covers(v, v.Keys, pairs)
    ensures FlatOf(v, FlatAll(Pairs(v), pairs))
  {
    forall x | x in Pairs(v) ensures x in pairs { InPairs(v, x); }
    AllListed(Pairs(v), pairs);
    FlatAllSome(Pairs(v), pairs);
  }

  lemma AllListed<K(!new)>(a: map<K, int>, keys: seq<K>)
    requires (forall k | k in keys :: k in a) && forall k | k in a :: k in keys
    ensures Listed(a, keys) == a
  {
  }

  // ------------------------------------------------------------------ there and back

  /** Going by `f` and coming back by `g` changes nothing exactly when it brings back every key.
      Whatever it makes of a key it leaves alone the next time. */
  lemma ThereAndBack<K(!new), L(!new)>(a: map<K, int>, b: map<L, int>, a': map<K, int>, f: K -> L, g: L -> K)
    requires Image(a, b, f) && Image(b, a', g)
    requires forall k :: g(f(g(f(k)))) == g(f(k))
    ensures a' == a <==> forall k | k in a :: g(f(k)) == k
  {
    if a' == a {
      forall k | k in a ensures g(f(k)) == k {
        var l :| l in b && g(l) == k && a'[k] == b[l];
        var j :| j in a && f(j) == l && b[l] == a[j];
      }
    } else if forall k | k in a :: g(f(k)) == k {
      forall k | k in a ensures k in a' { assert f(k) in b && g(f(k)) == k; }
      forall k | k in a' ensures k in a && a'[k] == a[k] {
        var l :| l in b && g(l) == k && a'[k] == b[l];
        var j :| j in a && f(j) == l && b[l] == a[j];
      }
    }
  }

  lemma JoinSplit(u: string)
    ensures Join(Split(u)) == if u == "" then "lovelace" else u
  {
  }

  /** Flat, nested, flat: the same again exactly for the maps without the empty unit. */
  lemma FlatRoundTrip(a: Assets, v: Nested, a': Assets)
    requires NestOf(a, v) && FlatOf(v, a')
    ensures a' == a <==> "" !in a
  {
    forall u ensures Join(Split(u)) == if u == "" then "lovelace" else u { JoinSplit(u); }
    ThereAndBack(a, Pairs(v), a', Split, Join);
  }

  /** Policies of 56 characters with any name, shorter ones without a name, and lovelace. */
  predicate Splittable(p: string, n: string) {
    || (p == "" && n == "")
    || |p| == 56
    || (0 < |p| < 56 && n == "" && p != "lovelace")
  }

  lemma SplitJoin(p: string, n: string)
    ensures Split(Join((p, n))) == (p, n) <==> Splittable(p, n)
    ensures Split(Join(Split(Join((p, n))))) == Split(Join((p, n)))
  {
    var u := Join((p, n));
    JoinSplit(u);
    assert u != "";
    if |p| == POLICY_LENGTH {
      SplitAt(p, n);
    } else if n == "" && p != "" {
      assert u == p;
    } else {
      Lengths(u);
    }
  }

  lemma SplitAt(p: string, n: string)
    requires |p| == POLICY_LENGTH
    ensures Split(p + n) == (p, n)
  {
    assert (p + n)[..POLICY_LENGTH] == p && (p + n)[POLICY_LENGTH..] == n;
    if n == "" { assert p + n == p; }
  }

  lemma Lengths(u: string)
    ensures Split(u).1 != "" ==> |Split(u).0| == POLICY_LENGTH
    ensures |u| > 8 ==> Split(u).0 != ""
  {
  }

  /** Nested, flat, nested: the same again exactly when no inner map is empty and every policy
      and name can be told apart in their unit. */
  lemma NestedRoundTrip(v: Nested, a: Assets, v': Nested)
    requires FlatOf(v, a) && NestOf(a, v')
    ensures v' == v <==> NoEmpty(v) && forall p, n | p in v && n in v[p] :: Splittable(p, n)
  {
    forall x: Pair ensures Split(Join(x)) == x <==> Splittable(x.0, x.1) { SplitJoin(x.0, x.1); }
    forall x: Pair ensures Split(Join(Split(Join(x)))) == Split(Join(x)) { SplitJoin(x.0, x.1); }
    ThereAndBack(Pairs(v), a, Pairs(v'), Join, Split);
    PairsTell(v, v');
    assert (forall x | x in Pairs(v) :: Splittable(x.0, x.1))
           <==> forall p, n | p in v && n in v[p] :: Splittable(p, n) by {
      forall p, n | p in v && n in v[p] ensures (p, n) in Pairs(v) {}
    }
  }

  lemma PairsTell(v: Nested, v': Nested)
    requires NoEmpty(v')
    ensures v' == v <==> NoEmpty(v) && Pairs(v') == Pairs(v)
  {
    if NoEmpty(v) && Pairs(v') == Pairs(v) {
      SameUnder(v, v');
      SameUnder(v', v);
    }
  }

  lemma SameUnder(v: Nested, v': Nested)
    requires NoEmpty(v) && Pairs(v') == Pairs(v)
    ensures forall p | p in v :: p in v' && v[p] == v'[p]
  {
    forall p | p in v ensures p in v' && v[p] == v'[p] {
      var m :| m in v[p];
      assert (p, m) in Pairs(v');
      forall n | n in v[p] ensures n in v'[p] && v'[p][n] == v[p][n] { assert (p, n) in Pairs(v'); }
      forall n | n in v'[p] ensures n in v[p] { assert (p, n) in Pairs(v); }
    }
  }
}
