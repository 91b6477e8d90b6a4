/** Union-find with path compression (`find` and `union` in `frontend/src/lib/fieldSuggest.ts`). */
module UnionFindForest {
  /** The parents, the partition they stand for, and an order in which every parent
      comes after its children. */
  datatype Forest<K(!new)> = Forest(parent: map<K, K>, root: map<K, K>, rank: map<K, nat>, height: nat)

  ghost predicate NodeOk<K(!new)>(f: Forest<K>, k: K) {
    && k in f.parent && k in f.root && k in f.rank
    && f.parent[k] in f.parent && f.parent[k] in f.root && f.parent[k] in f.rank
    && f.root[k] in f.parent && f.root[k] in f.root
    && (f.parent[k] == k <==> f.root[k] == k)
    && f.root[f.parent[k]] == f.root[k]
    && f.root[f.root[k]] == f.root[k]
    && f.rank[k] <= f.height
    && (f.parent[k] != k ==> f.rank[k] < f.rank[f.parent[k]])
  }

  ghost predicate ForestOk<K(!new)>(f: Forest<K>) {
    && f.parent.Keys == f.root.Keys == f.rank.Keys
    && forall k {:trigger NodeOk(f, k)} :: k in f.parent ==> NodeOk(f, k)
  }

  /** Pointing `k` straight at its root. */
  lemma CompressOk<K(!new)>(f: Forest<K>, k: K, r: K)
    requires ForestOk(f) && k in f.parent && f.parent[k] != k && r == f.root[k] && r in f.rank && f.rank[k] < f.rank[r]
    ensures ForestOk(f.(parent := f.parent[k := r]))
  {
    var g := f.(parent := f.parent[k := r]);
    assert NodeOk(f, k);
    assert NodeOk(f, r);
    assert g.parent.Keys == f.parent.Keys;
    forall x | x in g.parent ensures NodeOk(g, x) {
      assert NodeOk(f, x);
    }
  }

  ghost function Joined<K(!new)>(root: map<K, K>, ra: K, rb: K): map<K, K> {
    map x | x in root :: if root[x] == ra then rb else root[x]
  }

  ghost function Hung<K(!new)>(f: Forest<K>, ra: K, rb: K): Forest<K>
    requires ra in f.rank && rb in f.rank
  {
    var top := if f.rank[rb] <= f.rank[ra] then f.rank[ra] + 1 else f.rank[rb];
    Forest(f.parent[ra := rb], Joined(f.root, ra, rb), f.rank[rb := top], if f.height < top then top else f.height)
  }

  lemma HungNodeOk<K(!new)>(f: Forest<K>, ra: K, rb: K, x: K)
    requires ra != rb && NodeOk(f, ra) && NodeOk(f, rb) && f.parent[ra] == ra && f.parent[rb] == rb
    requires NodeOk(f, x) && NodeOk(f, f.parent[x])
    ensures NodeOk(Hung(f, ra, rb), x)
  {
    var g := Hung(f, ra, rb);
    if x == ra {
      assert g.parent[x] == rb && g.root[x] == rb && g.root[rb] == rb;
    } else {
      assert g.parent[x] == f.parent[x];
    }
  }

  /** Hanging root `ra` under root `rb`. */
  lemma LinkOk<K(!new)>(f: Forest<K>, ra: K, rb: K) returns (g: Forest<K>)
    requires ForestOk(f) && ra in f.parent && rb in f.parent && f.parent[ra] == ra && f.parent[rb] == rb
    ensures ForestOk(g) && g.parent == f.parent[ra := rb] && g.root == Joined(f.root, ra, rb)
  {
    hide NodeOk, Hung, Joined;
    if ra == rb {
      g := f;
      LinkToSelf(f, ra);
    } else {
      g := Hung(f, ra, rb);
      HungOk(f, ra, rb);
    }
  }

  lemma LinkToSelf<K(!new)>(f: Forest<K>, r: K)
    requires r in f.parent && f.parent[r] == r
    ensures f.parent[r := r] == f.parent && Joined(f.root, r, r) == f.root
  {
  }

  lemma HungOk<K(!new)>(f: Forest<K>, ra: K, rb: K)
    requires ForestOk(f) && ra in f.parent && rb in f.parent && f.parent[ra] == ra && f.parent[rb] == rb && ra != rb
    ensures ForestOk(Hung(f, ra, rb))
    ensures Hung(f, ra, rb).parent == f.parent[ra := rb] && Hung(f, ra, rb).root == Joined(f.root, ra, rb)
  {
    RootOk(f, ra);
    RootOk(f, rb);
    HungKeys(f, ra, rb);
    var g := Hung(f, ra, rb);
    hide NodeOk;
    forall x | x in g.parent ensures NodeOk(g, x) {
      RootOk(f, x);
      HungNodeOk(f, ra, rb, x);
    }
  }

  lemma HungKeys<K(!new)>(f: Forest<K>, ra: K, rb: K)
    requires ra in f.parent && rb in f.parent && f.parent.Keys == f.root.Keys == f.rank.Keys
    ensures Hung(f, ra, rb).parent.Keys == Hung(f, ra, rb).root.Keys == Hung(f, ra, rb).rank.Keys == f.parent.Keys
  {
  }

  lemma RootOk<K(!new)>(f: Forest<K>, k: K)
    requires ForestOk(f) && k in f.parent
    ensures NodeOk(f, k) && NodeOk(f, f.root[k]) && f.parent[f.root[k]] == f.root[k]
    ensures NodeOk(f, f.parent[k])
  {
    assert NodeOk(f, k);
    assert NodeOk(f, f.root[k]);
  }

  class UnionFind<K(==, !new)> {
    var parent: map<K, K>
    ghost var root: map<K, K>
    ghost var rank: map<K, nat>
    ghost var height: nat

    ghost function Snapshot(): Forest<K>
      reads this
    {
      Forest(parent, root, rank, height)
    }

    ghost predicate Valid()
      reads this
    {
      ForestOk(Snapshot())
    }

    constructor (keys: set<K>)
      ensures Valid() && parent.Keys == keys
      ensures root == map k | k in keys :: k
    {
      parent := map k | k in keys :: k;
      root := map k | k in keys :: k;
      rank := map k | k in keys :: 0;
      height := 0;
    }

    /** The root of `k`, with the path to it compressed.  The partition is untouched. */
    method Find(k: K) returns (r: K)
      requires Valid() && k in parent
      modifies this`parent
      ensures Valid() && k in root && r == root[k] && r in parent && parent[r] == r
      ensures k in rank && r in rank && rank[k] <= rank[r]
      ensures parent.Keys == old(parent.Keys)
      decreases height - if k in rank then rank[k] else 0
    {
      hide ForestOk;
      RootOk(Snapshot(), k);
      var p := parent[k];
      if p == k {
        return k;
      }
      r := Find(p);
      RootOk(Snapshot(), k);
      CompressOk(Snapshot(), k, r);
      parent := parent[k := r];
    }

    /** Join the classes of `a` and `b` under the root of `b`. */
    method Union(a: K, b: K)
      requires Valid() && a in parent && b in parent
      modifies this
      ensures Valid() && parent.Keys == old(parent.Keys)
      ensures a in old(root) && b in old(root) && root == Joined(old(root), old(root)[a], old(root)[b])
    {
      hide ForestOk;
      RootOk(Snapshot(), a);
      RootOk(Snapshot(), b);
      var ra := Find(a);
      var rb := Find(b);
      RootOk(Snapshot(), a);
      RootOk(Snapshot(), b);
      ghost var g := LinkOk(Snapshot(), ra, rb);
      parent := parent[ra := rb];
      root, rank, height := g.root, g.rank, g.height;
    }
  }

  ghost predicate Closed<K(!new)>(parent: map<K, K>) {
    forall x :: x in parent ==> parent[x] in parent
  }

  /** Following parents from `k`, `n` times. */
  ghost function Follow<K(!new)>(parent: map<K, K>, k: K, n: nat): K
    requires k in parent && Closed(parent)
    decreases n
  {
    if n == 0 then k else Follow(parent, parent[k], n - 1)
  }

  /** Following parents from any key ends at its root, so `find` returns the one key on its
      path that is its own parent. */
  lemma {:induction false} ParentsReachRoot<K(!new)>(f: Forest<K>, k: K) returns (n: nat)
    requires ForestOk(f) && k in f.parent
    ensures Closed(f.parent)
    ensures k in f.root && Follow(f.parent, k, n) == f.root[k]
    ensures f.root[k] in f.parent && f.parent[f.root[k]] == f.root[k]
    decreases f.height - if k in f.rank then f.rank[k] else 0
  {
    forall x | x in f.parent ensures f.parent[x] in f.parent {
      assert NodeOk(f, x);
    }
    RootOk(f, k);
    if f.parent[k] == k {
      n := 0;
    } else {
      var m := ParentsReachRoot(f, f.parent[k]);
      n := m + 1;
    }
  }
}
