/** Merge suggestions for field names (`frontend/src/lib/fieldSuggest.ts`).

    A field comes with its normalised name tokens and the dominant shape of its
    sampled values.  Pairwise-compatible fields are joined by union-find, and the
    groups are the connected components of the pairwise relation. */
module FieldSuggest {
  import opened Options
  import opened UnionFindForest

  datatype Field = Field(key: string, tokens: seq<string>, shape: string)

  const DIRECTIONAL: set<string> := {"source", "destination", "in", "out", "inbound", "outbound"}
  const GENERIC: set<string> := {"id", "name", "value", "data", "field", "info", "type"}

  /** The tokens that give a direction. */
  ghost predicate IsDirectional(t: string) {
    t == "source" || t == "destination" || t == "in" || t == "out" || t == "inbound" || t == "outbound"
  }

  /** The tokens that alone do not justify a merge. */
  ghost predicate IsGeneric(t: string) {
    t == "id" || t == "name" || t == "value" || t == "data" || t == "field" || t == "info" || t == "type"
  }

  function DirectionOf(tokens: seq<string>): Option<string> {
    if tokens == [] then None
    else if tokens[0] in DIRECTIONAL then Some(tokens[0])
    else DirectionOf(tokens[1..])
  }

  /** The tokens of `a` that `b` has too and that say something. */
  function SharedTokens(a: seq<string>, b: seq<string>): seq<string> {
    if a == [] then []
    else
      var t := a[0];
      (if t in b && t !in GENERIC && t !in DIRECTIONAL then [t] else []) + SharedTokens(a[1..], b)
  }

  predicate Conflicting(a: Field, b: Field) {
    var dirA, dirB := DirectionOf(a.tokens), DirectionOf(b.tokens);
    dirA.Some? && dirB.Some? && dirA != dirB
  }

  predicate Compatible(a: Field, b: Field) {
    && !Conflicting(a, b)
    && (a.shape == "unknown" || b.shape == "unknown" || a.shape == b.shape)
    && SharedTokens(a.tokens, b.tokens) != []
  }

  /** The direction is the first directional token, if there is one. */
  lemma {:induction false} DirectionIsFirst(tokens: seq<string>, k: nat)
    requires k <= |tokens| && (forall j :: 0 <= j < k ==> !IsDirectional(tokens[j]))
    ensures k == |tokens| ==> DirectionOf(tokens) == None
    ensures k < |tokens| && IsDirectional(tokens[k]) ==> DirectionOf(tokens) == Some(tokens[k])
  {
    if k > 0 {
      assert !IsDirectional(tokens[0]);
      DirectionIsFirst(tokens[1..], k - 1);
    }
  }

  lemma {:induction false} SharedTokensMeans(a: seq<string>, b: seq<string>)
    ensures forall t: string :: t in SharedTokens(a, b) <==> t in a && t in b && !IsGeneric(t) && !IsDirectional(t)
    ensures SharedTokens(a, b) != [] <==> exists t: string :: t in a && t in b && !IsGeneric(t) && !IsDirectional(t)
  {
    if a != [] {
      SharedTokensMeans(a[1..], b);
      assert a == [a[0]] + a[1..];
    }
    if SharedTokens(a, b) != [] {
      assert SharedTokens(a, b)[0] in SharedTokens(a, b);
    }
  }

  /** Two fields are compatible exactly when some token of both is neither generic nor directional,
      they do not have different directions, and their shapes agree or one is unknown. */
  lemma CompatibleMeans(a: Field, b: Field)
    ensures Compatible(a, b) <==>
            && (exists t: string :: t in a.tokens && t in b.tokens && !IsGeneric(t) && !IsDirectional(t))
            && (DirectionOf(a.tokens) == None || DirectionOf(b.tokens) == None
                || DirectionOf(a.tokens) == DirectionOf(b.tokens))
            && (a.shape == b.shape || a.shape == "unknown" || b.shape == "unknown")
  {
    SharedTokensMeans(a.tokens, b.tokens);
  }

  lemma CompatibleSymmetric(a: Field, b: Field)
    ensures Compatible(a, b) == Compatible(b, a)
  {
    SharedTokensMeans(a.tokens, b.tokens);
    SharedTokensMeans(b.tokens, a.tokens);
  }

  // ----- Components of the pairwise relation -----

  /** Fields `i` and `j` are compatible; fields with the same key are one field. */
  ghost predicate Linked(fields: seq<Field>, i: nat, j: nat) {
    && i < |fields| && j < |fields|
    && (fields[i].key == fields[j].key || (i != j && Compatible(fields[i], fields[j])))
  }

  ghost predicate Path(fields: seq<Field>, p: seq<nat>, i: nat, j: nat) {
    && p != [] && p[0] == i && p[|p| - 1] == j
    && (forall t :: 0 <= t < |p| ==> p[t] < |fields|)
    && forall t :: 0 <= t < |p| - 1 ==> Linked(fields, p[t], p[t + 1])
  }

  ghost predicate Connected(fields: seq<Field>, i: nat, j: nat) {
    exists p :: Path(fields, p, i, j)
  }

  lemma ConnectedReflexive(fields: seq<Field>, i: nat)
    requires i < |fields|
    ensures Connected(fields, i, i)
  {
    assert Path(fields, [i], i, i);
  }

  lemma LinkConnects(fields: seq<Field>, i: nat, j: nat)
    requires Linked(fields, i, j)
    ensures Connected(fields, i, j) && Connected(fields, j, i)
  {
    CompatibleSymmetric(fields[i], fields[j]);
    assert Path(fields, [i, j], i, j);
    assert Path(fields, [j, i], j, i);
  }

  lemma ConnectedTransitive(fields: seq<Field>, i: nat, j: nat, k: nat)
    requires Connected(fields, i, j) && Connected(fields, j, k)
    ensures Connected(fields, i, k)
  {
    var p :| Path(fields, p, i, j);
    var q :| Path(fields, q, j, k);
    var r := p + q[1..];
    forall t | 0 <= t < |r| - 1 ensures Linked(fields, r[t], r[t + 1]) {
      if t < |p| - 1 {
        assert Linked(fields, p[t], p[t + 1]);
      } else {
        var u := t - (|p| - 1);
        assert r[t] == q[u] && r[t + 1] == q[u + 1];
        assert Linked(fields, q[u], q[u + 1]);
      }
    }
    assert Path(fields, r, i, k);
  }

  lemma {:induction false} ConnectedSymmetric(fields: seq<Field>, p: seq<nat>, i: nat, j: nat)
    requires Path(fields, p, i, j)
    ensures Connected(fields, j, i)
    decreases |p|
  {
    if |p| == 1 {
      ConnectedReflexive(fields, i);
    } else {
      assert Linked(fields, p[0], p[1]);
      LinkConnects(fields, p[0], p[1]);
      var q := p[1..];
      forall t | 0 <= t < |q| - 1 ensures Linked(fields, q[t], q[t + 1]) {
        var u := t + 1;
        assert Linked(fields, p[u], p[u + 1]);
      }
      ConnectedSymmetric(fields, q, p[1], j);
      ConnectedTransitive(fields, j, p[1], i);
    }
  }

  /** The keys connected to field `i`, among the first `n`, in order. */
  ghost function Component(fields: seq<Field>, i: nat, n: nat): seq<string>
    requires n <= |fields|
  {
    if n == 0 then []
    else Component(fields, i, n - 1) + (if Connected(fields, i, n - 1) then [fields[n - 1].key] else [])
  }

  // ----- Joining the compatible pairs -----

  /** A compatible pair and what it shares. */
  datatype Record = Record(a: string, b: string, shared: seq<string>)

  /** The records of the pairs `(i, b)` with `i < b < j`, in order. */
  ghost function RowRecords(fields: seq<Field>, i: nat, j: nat): seq<Record>
    requires i < |fields| && j <= |fields|
    decreases j
  {
    if j <= i + 1 then []
    else
      RowRecords(fields, i, j - 1)
      + if Compatible(fields[i], fields[j - 1])
        then [Record(fields[i].key, fields[j - 1].key, SharedTokens(fields[i].tokens, fields[j - 1].tokens))]
        else []
  }

  ghost function AllRecords(fields: seq<Field>, n: nat): seq<Record>
    requires n <= |fields|
  {
    if n == 0 then [] else AllRecords(fields, n - 1) + RowRecords(fields, n - 1, |fields|)
  }

  ghost predicate Covers(root: map<string, string>, fields: seq<Field>) {
    forall x :: 0 <= x < |fields| ==> fields[x].key in root
  }

  ghost predicate Same(root: map<string, string>, fields: seq<Field>, x: int, y: int)
    requires Covers(root, fields) && 0 <= x < |fields| && 0 <= y < |fields|
  {
    root[fields[x].key] == root[fields[y].key]
  }

  /** Fields in one class are connected. */
  ghost predicate Sound(root: map<string, string>, fields: seq<Field>)
    requires Covers(root, fields)
  {
    forall x: nat, y: nat :: x < |fields| && y < |fields| && Same(root, fields, x, y) ==> Connected(fields, x, y)
  }

  /** Compatible pairs up to `(i, j)` are in one class. */
  ghost predicate Complete(root: map<string, string>, fields: seq<Field>, i: int, j: int)
    requires Covers(root, fields)
  {
    forall a, b :: 0 <= a < b < |fields| && (a < i || (a == i && b < j)) && Compatible(fields[a], fields[b]) ==>
      Same(root, fields, a, b)
  }

  lemma IdentitySound(root: map<string, string>, fields: seq<Field>)
    requires Covers(root, fields) && forall k :: k in root ==> root[k] == k
    ensures Sound(root, fields)
  {
    forall x: nat, y: nat | x < |fields| && y < |fields| && Same(root, fields, x, y) ensures Connected(fields, x, y) {
      LinkConnects(fields, x, y);
    }
  }

  /** Joining the classes of a compatible pair keeps what was joined and joins the pair,
      and joins nothing that is not connected. */
  lemma JoinPair(root: map<string, string>, fields: seq<Field>, i: nat, j: nat)
    requires Covers(root, fields) && Sound(root, fields) && Complete(root, fields, i, j)
    requires i < j < |fields| && Compatible(fields[i], fields[j])
    ensures var root' := Joined(root, root[fields[i].key], root[fields[j].key]);
            Covers(root', fields) && Sound(root', fields) && Complete(root', fields, i, j + 1)
  {
    hide Compatible;
    var root' := Joined(root, root[fields[i].key], root[fields[j].key]);
    LinkConnects(fields, i, j);
    forall x: nat, y: nat | x < |fields| && y < |fields| && Same(root', fields, x, y) ensures Connected(fields, x, y) {
      if Same(root, fields, x, y) {
      } else if Same(root, fields, x, i) {
        assert Same(root, fields, j, y);
        ConnectedTransitive(fields, x, i, j);
        ConnectedTransitive(fields, x, j, y);
      } else {
        assert Same(root, fields, x, j) && Same(root, fields, i, y);
        ConnectedTransitive(fields, x, j, i);
        ConnectedTransitive(fields, x, i, y);
      }
    }
    forall a, b | 0 <= a < b < |fields| && (a < i || (a == i && b < j + 1)) && Compatible(fields[a], fields[b])
      ensures Same(root', fields, a, b)
    {
      if !(a == i && b == j) {
        assert Same(root, fields, a, b);
      }
    }
  }

  /** When every compatible pair is joined, connected fields share a class. */
  lemma {:induction false} PathIsOneClass(root: map<string, string>, fields: seq<Field>, p: seq<nat>, x: nat, y: nat)
    requires Covers(root, fields) && Complete(root, fields, |fields|, 0)
    requires Path(fields, p, x, y)
    ensures Same(root, fields, x, y)
    decreases |p|
  {
    if |p| > 1 {
      assert Linked(fields, p[0], p[1]);
      CompatibleSymmetric(fields[p[0]], fields[p[1]]);
      assert Same(root, fields, p[0], p[1]);
      var q := p[1..];
      forall t | 0 <= t < |q| - 1 ensures Linked(fields, q[t], q[t + 1]) {
        var u := t + 1;
        assert Linked(fields, p[u], p[u + 1]);
      }
      PathIsOneClass(root, fields, q, p[1], y);
    }
  }

  /** The classes are the connected components. */
  lemma ClassesAreComponents(root: map<string, string>, fields: seq<Field>, x: nat, y: nat)
    requires Covers(root, fields) && Sound(root, fields) && Complete(root, fields, |fields|, 0)
    requires x < |fields| && y < |fields|
    ensures Same(root, fields, x, y) <==> Connected(fields, x, y)
  {
    if Connected(fields, x, y) {
      var p :| Path(fields, p, x, y);
      PathIsOneClass(root, fields, p, x, y);
    }
  }

  /** The double loop: join and record every compatible pair. */
  method JoinPairs(fields: seq<Field>, uf: UnionFind<string>) returns (records: seq<Record>)
    requires uf.Valid() && uf.parent.Keys == (set x | 0 <= x < |fields| :: fields[x].key)
    requires forall k :: k in uf.root ==> uf.root[k] == k
    modifies uf
    ensures uf.Valid() && uf.parent.Keys == old(uf.parent.Keys) && uf.root.Keys == uf.parent.Keys
    ensures Covers(uf.root, fields) && Sound(uf.root, fields) && Complete(uf.root, fields, |fields|, 0)
    ensures records == AllRecords(fields, |fields|)
  {
    hide Compatible, Sound, Complete, ForestOk, SharedTokens, AllRecords, RowRecords;
    records := [];
    KeysOf(uf.Snapshot());
    assert Covers(uf.root, fields);
    IdentitySound(uf.root, fields);
    NothingToJoin(uf.root, fields);
    assert AllRecords(fields, 0) == [] by { NoRecords(fields); }
    for i := 0 to |fields|
      invariant uf.Valid() && uf.parent.Keys == old(uf.parent.Keys) && uf.root.Keys == uf.parent.Keys
      invariant Covers(uf.root, fields) && Sound(uf.root, fields) && Complete(uf.root, fields, i, 0)
      invariant records == AllRecords(fields, i)
    {
      NextRow(uf.root, fields, i);
      EmptyRow(fields, i);
      for j := i + 1 to |fields|
        invariant uf.Valid() && uf.parent.Keys == old(uf.parent.Keys) && uf.root.Keys == uf.parent.Keys
        invariant Covers(uf.root, fields) && Sound(uf.root, fields) && Complete(uf.root, fields, i, j)
        invariant records == AllRecords(fields, i) + RowRecords(fields, i, j)
      {
        var a, b := fields[i], fields[j];
        if Compatible(a, b) {
          JoinPair(uf.root, fields, i, j);
          RowStep(fields, i, j);
          uf.Union(a.key, b.key);
          records := records + [Record(a.key, b.key, SharedTokens(a.tokens, b.tokens))];
          KeysOf(uf.Snapshot());
        } else {
          SkipPair(uf.root, fields, i, j);
          RowStep(fields, i, j);
        }
      }
      RowDone(uf.root, fields, i);
      RowsStep(fields, i);
    }
  }

  lemma EmptyRow(fields: seq<Field>, i: nat)
    requires i < |fields|
    ensures RowRecords(fields, i, i + 1) == []
  {
  }

  lemma NoRecords(fields: seq<Field>)
    ensures AllRecords(fields, 0) == []
  {
  }

  lemma RowStep(fields: seq<Field>, i: nat, j: nat)
    requires i < j < |fields|
    ensures RowRecords(fields, i, j + 1) ==
            RowRecords(fields, i, j) + if Compatible(fields[i], fields[j])
                                       then [Record(fields[i].key, fields[j].key,
                                                    SharedTokens(fields[i].tokens, fields[j].tokens))]
                                       else []
  {
    hide Compatible, SharedTokens;
  }

  lemma RowsStep(fields: seq<Field>, i: nat)
    requires i < |fields|
    ensures AllRecords(fields, i + 1) == AllRecords(fields, i) + RowRecords(fields, i, |fields|)
  {
    hide RowRecords;
  }

  lemma KeysOf(f: Forest<string>)
    requires ForestOk(f)
    ensures f.parent.Keys == f.root.Keys
  {
  }

  lemma NothingToJoin(root: map<string, string>, fields: seq<Field>)
    requires Covers(root, fields)
    ensures Complete(root, fields, 0, 0)
  {
  }

  lemma NextRow(root: map<string, string>, fields: seq<Field>, i: nat)
    requires Covers(root, fields) && Complete(root, fields, i, 0)
    ensures Complete(root, fields, i, i + 1)
  {
  }

  lemma SkipPair(root: map<string, string>, fields: seq<Field>, i: nat, j: nat)
    requires Covers(root, fields) && i < j < |fields| && !Compatible(fields[i], fields[j])
        && Complete(root, fields, i, j)
    ensures Complete(root, fields, i, j + 1)
  {
    hide Compatible;
  }

  lemma RowDone(root: map<string, string>, fields: seq<Field>, i: nat)
    requires Covers(root, fields) && Complete(root, fields, i, |fields|)
    ensures Complete(root, fields, i + 1, 0)
  {
    hide Compatible;
  }

  // ----- Groups -----

  /** A suggestion: its members in field order, and the tokens its pairs share. */
  datatype Group = Group(members: seq<string>, shared: seq<string>)

  /** The keys with root `r` among the first `n` fields. */
  ghost function KeysWithRoot(root: map<string, string>, fields: seq<Field>, r: string, n: nat): seq<string>
    requires Covers(root, fields) && n <= |fields|
  {
    if n == 0 then []
    else KeysWithRoot(root, fields, r, n - 1) + (if root[fields[n - 1].key] == r then [fields[n - 1].key] else [])
  }

  /** The tokens of the records with both ends among the members, in order. */
  function GroupTokens(records: seq<Record>, members: seq<string>): seq<string> {
    if records == [] then []
    else
      (if records[0].a in members && records[0].b in members then records[0].shared else [])
      + GroupTokens(records[1..], members)
  }

  /** `[...new Set(tokens)]` */
  function Distinct(tokens: seq<string>): seq<string> {
    if tokens == [] then []
    else
      var front := Distinct(tokens[..|tokens| - 1]);
      var t := tokens[|tokens| - 1];
      if t in front then front else front + [t]
  }

  lemma DistinctStep(front: seq<string>, last: string)
    ensures Distinct(front + [last]) == Distinct(front) + if last in Distinct(front) then [] else [last]
  {
    assert (front + [last])[..|front|] == front;
  }

  /** The same tokens, each once, in the order of first sight: what more tokens add comes after. */
  lemma {:induction false} DistinctMeans(tokens: seq<string>, t: string)
    ensures t in Distinct(tokens) <==> t in tokens
    ensures forall i, j :: 0 <= i < j < |Distinct(tokens)| ==> Distinct(tokens)[i] != Distinct(tokens)[j]
    ensures tokens != [] ==> Distinct(tokens[..|tokens| - 1]) <= Distinct(tokens)
  {
    if tokens != [] {
      var front, last := tokens[..|tokens| - 1], tokens[|tokens| - 1];
      assert tokens == front + [last];
      DistinctMeans(front, t);
      DistinctStep(front, last);
      hide Distinct;
      assert t in tokens <==> t in front || t == last;
    }
  }

  lemma {:induction false} ComponentIsClass(root: map<string, string>, fields: seq<Field>, x: nat, n: nat)
    requires Covers(root, fields) && Sound(root, fields) && Complete(root, fields, |fields|, 0)
    requires x < |fields| && n <= |fields|
    ensures KeysWithRoot(root, fields, root[fields[x].key], n) == Component(fields, x, n)
  {
    hide Sound, Complete, Connected;
    if n > 0 {
      ComponentIsClass(root, fields, x, n - 1);
      ClassesAreComponents(root, fields, x, n - 1);
    }
  }

  /** What the map of groups holds after the first `n` fields. */
  ghost predicate Grouped(root: map<string, string>, fields: seq<Field>, order: seq<string>,
          groups: map<string, seq<string>>, n: nat)
    requires Covers(root, fields) && n <= |fields|
  {
    && (forall t :: 0 <= t < |order| ==>
          order[t] in groups && groups[order[t]] == KeysWithRoot(root, fields, order[t], n))
    && AllDifferent(order)
    && AllListed(order, groups)
    && (forall x :: 0 <= x < n ==> root[fields[x].key] in groups)
    && (forall t :: 0 <= t < |order| ==> RootSeen(root, fields, order[t], n))
  }

  ghost predicate AllDifferent(order: seq<string>) {
    forall t, u :: 0 <= t < u < |order| ==> order[t] != order[u]
  }

  lemma OneMoreDifferent(order: seq<string>, r: string)
    requires AllDifferent(order) && forall t :: 0 <= t < |order| ==> order[t] != r
    ensures AllDifferent(order + [r])
  {
  }

  ghost predicate AllListed(order: seq<string>, groups: map<string, seq<string>>) {
    forall r :: r in groups ==> r in order
  }

  lemma OneMoreListed(order: seq<string>, groups: map<string, seq<string>>, r: string, members: seq<string>)
    requires AllListed(order, groups)
    ensures AllListed(order + [r], groups[r := members])
    ensures r in groups ==> AllListed(order, groups[r := members])
  {
  }

  ghost predicate RootSeen(root: map<string, string>, fields: seq<Field>, r: string, n: nat)
    requires Covers(root, fields) && n <= |fields|
  {
    exists x :: 0 <= x < n && root[fields[x].key] == r
  }

  lemma {:induction false} NoKeysYet(root: map<string, string>, fields: seq<Field>, r: string, n: nat)
    requires Covers(root, fields) && n <= |fields| && !RootSeen(root, fields, r, n)
    ensures KeysWithRoot(root, fields, r, n) == []
  {
    if n > 0 {
      NoKeysYet(root, fields, r, n - 1);
    }
  }

  /** One more field goes to the list of its root, if there is one... */
  lemma GroupKnown(root: map<string, string>, fields: seq<Field>, order: seq<string>,
          groups: map<string, seq<string>>, n: nat)
    requires Covers(root, fields) && n < |fields| && Grouped(root, fields, order, groups, n)
    requires root[fields[n].key] in groups
    ensures var r := root[fields[n].key];
            Grouped(root, fields, order, groups[r := groups[r] + [fields[n].key]], n + 1)
  {
    OneMoreListed(order, groups, root[fields[n].key], groups[root[fields[n].key]] + [fields[n].key]);
    hide KeysWithRoot, RootSeen, AllListed;
    var r := root[fields[n].key];
    var groups' := groups[r := groups[r] + [fields[n].key]];
    forall t | 0 <= t < |order|
      ensures order[t] in groups' && groups'[order[t]] == KeysWithRoot(root, fields, order[t], n + 1)
      ensures RootSeen(root, fields, order[t], n + 1)
    {
      KeysStep(root, fields, n, order[t]);
    }
  }

  lemma FirstOfGroup(root: map<string, string>, fields: seq<Field>, order: seq<string>,
          groups: map<string, seq<string>>, n: nat)
    requires Covers(root, fields) && n < |fields| && Grouped(root, fields, order, groups, n)
    requires root[fields[n].key] !in groups
    ensures var r := root[fields[n].key];
            KeysWithRoot(root, fields, r, n + 1) == [fields[n].key] && RootSeen(root, fields, r, n + 1)
  {
    var r := root[fields[n].key];
    assert !RootSeen(root, fields, r, n);
    NoKeysYet(root, fields, r, n);
    KeysStep(root, fields, n, r);
  }

  lemma OtherGroups(root: map<string, string>, fields: seq<Field>, order: seq<string>,
          groups: map<string, seq<string>>, n: nat, t: nat)
    requires Covers(root, fields) && n < |fields| && Grouped(root, fields, order, groups, n)
    requires root[fields[n].key] !in groups && t < |order|
    ensures order[t] != root[fields[n].key] && order[t] in groups
    ensures groups[order[t]] == KeysWithRoot(root, fields, order[t], n + 1)
    ensures RootSeen(root, fields, order[t], n + 1)
  {
    KeysStep(root, fields, n, order[t]);
    hide KeysWithRoot, RootSeen;
  }

  /** ...and opens one otherwise. */
  lemma GroupNew(root: map<string, string>, fields: seq<Field>, order: seq<string>, groups: map<string, seq<string>>,
          n: nat)
    requires Covers(root, fields) && n < |fields| && Grouped(root, fields, order, groups, n)
    requires root[fields[n].key] !in groups
    ensures var r := root[fields[n].key];
            Grouped(root, fields, order + [r], groups[r := [fields[n].key]], n + 1)
  {
    hide KeysWithRoot, RootSeen, AllListed, AllDifferent;
    var r := root[fields[n].key];
    FirstOfGroup(root, fields, order, groups, n);
    forall t | 0 <= t < |order|
      ensures order[t] != r && order[t] in groups
      ensures groups[order[t]] == KeysWithRoot(root, fields, order[t], n + 1) && RootSeen(root, fields, order[t], n + 1)
    {
      OtherGroups(root, fields, order, groups, n, t);
    }
    OneMoreListed(order, groups, r, [fields[n].key]);
    OneMoreDifferent(order, r);
    assert forall x :: 0 <= x < n ==> root[fields[x].key] in groups;
    assert forall t :: 0 <= t < |order| ==> (order + [r])[t] == order[t];
  }

  lemma KeysStep(root: map<string, string>, fields: seq<Field>, n: nat, r: string)
    requires Covers(root, fields) && n < |fields|
    ensures KeysWithRoot(root, fields, r, n + 1) ==
            if root[fields[n].key] == r then KeysWithRoot(root, fields, r, n) + [fields[n].key]
                else KeysWithRoot(root, fields, r, n)
  {
  }

  /** Collect the fields under their roots. */
  method CollectGroups(fields: seq<Field>, uf: UnionFind<string>) returns (order: seq<string>,
          groups: map<string, seq<string>>)
    requires uf.Valid() && uf.root.Keys == uf.parent.Keys && Covers(uf.root, fields)
    modifies uf`parent
    ensures Grouped(uf.root, fields, order, groups, |fields|)
  {
    hide ForestOk, Grouped, KeysWithRoot;
    order, groups := [], map[];
    EmptyGrouped(uf.root, fields);
    for n := 0 to |fields|
      invariant uf.Valid() && uf.root.Keys == uf.parent.Keys
      invariant Grouped(uf.root, fields, order, groups, n)
    {
      var key := fields[n].key;
      var root := uf.Find(key);
      if root in groups {
        GroupKnown(uf.root, fields, order, groups, n);
        groups := groups[root := groups[root] + [key]];
      } else {
        GroupNew(uf.root, fields, order, groups, n);
        order, groups := order + [root], groups[root := [key]];
      }
    }
  }

  lemma EmptyGrouped(root: map<string, string>, fields: seq<Field>)
    requires Covers(root, fields)
    ensures Grouped(root, fields, [], map[], 0)
  {
  }

  /** Group `g` is the component of field `x`, with the tokens its pairs share. */
  ghost predicate IsComponent(fields: seq<Field>, g: Group, x: nat) {
    && x < |fields|
    && g.members == Component(fields, x, |fields|)
    && |g.members| >= 2
    && g.shared == Distinct(GroupTokens(AllRecords(fields, |fields|), g.members))
  }

  ghost predicate IsGroup(fields: seq<Field>, g: Group) {
    exists x: nat :: IsComponent(fields, g, x)
  }

  /** The suggested groups are the connected components with two or more fields, each once. */
  method SuggestGroups(fields: seq<Field>) returns (suggestions: seq<Group>)
    ensures forall t :: 0 <= t < |suggestions| ==> IsGroup(fields, suggestions[t])
    ensures forall x: nat :: x < |fields| && |Component(fields, x, |fields|)| >= 2 ==>
              exists t :: 0 <= t < |suggestions| && suggestions[t].members == Component(fields, x, |fields|)
    ensures forall t, u :: 0 <= t < u < |suggestions| ==> suggestions[t].members != suggestions[u].members
  {
    var uf := new UnionFind<string>(set x | 0 <= x < |fields| :: fields[x].key);
    var records := JoinPairs(fields, uf);
    var order, groups := CollectGroups(fields, uf);
    ghost var kept;
    suggestions, kept := ListGroups(fields, records, order, groups, uf.root);
    ListedMeans(uf.root, fields, order, groups, suggestions, kept);
  }

  lemma {:induction false} MembersHaveRoot(root: map<string, string>, fields: seq<Field>, r: string, n: nat)
    requires Covers(root, fields) && n <= |fields|
    ensures forall t :: 0 <= t < |KeysWithRoot(root, fields, r, n)| ==>
              KeysWithRoot(root, fields, r, n)[t] in root && root[KeysWithRoot(root, fields, r, n)[t]] == r
  {
    if n > 0 {
      MembersHaveRoot(root, fields, r, n - 1);
    }
  }

  /** The suggestion for position `u` of `order`. */
  ghost predicate SuggestionOf(root: map<string, string>, fields: seq<Field>, order: seq<string>, g: Group, u: nat)
    requires Covers(root, fields)
  {
    && u < |order|
    && g.members == KeysWithRoot(root, fields, order[u], |fields|)
    && |g.members| >= 2
    && IsGroup(fields, g)
  }

  /** The suggestions after `k` groups, with the positions they come from. */
  ghost predicate Listed(root: map<string, string>, fields: seq<Field>, order: seq<string>, suggestions: seq<Group>,
          kept: seq<nat>, k: nat)
    requires Covers(root, fields)
  {
    && |kept| == |suggestions| && k <= |order|
    && (forall t :: 0 <= t < |kept| ==> kept[t] < k && SuggestionOf(root, fields, order, suggestions[t], kept[t]))
    && (forall t, u :: 0 <= t < u < |kept| ==> kept[t] < kept[u])
    && (forall u :: 0 <= u < k && |KeysWithRoot(root, fields, order[u], |fields|)| >= 2 ==> u in kept)
  }

  lemma ListedMore(root: map<string, string>, fields: seq<Field>, order: seq<string>, suggestions: seq<Group>,
          kept: seq<nat>, k: nat, g: Group)
    requires Covers(root, fields) && Listed(root, fields, order, suggestions, kept, k)
    requires SuggestionOf(root, fields, order, g, k)
    ensures Listed(root, fields, order, suggestions + [g], kept + [k], k + 1)
  {
    assert k < |order|;
    hide KeysWithRoot, SuggestionOf;
    forall u | 0 <= u < k + 1 && |KeysWithRoot(root, fields, order[u], |fields|)| >= 2 ensures u in kept + [k] {
      if u < k {
        assert u in kept;
      }
    }
  }

  lemma ListedSame(root: map<string, string>, fields: seq<Field>, order: seq<string>, suggestions: seq<Group>,
          kept: seq<nat>, k: nat)
    requires Covers(root, fields) && Listed(root, fields, order, suggestions, kept, k)
    requires k < |order| && |KeysWithRoot(root, fields, order[k], |fields|)| < 2
    ensures Listed(root, fields, order, suggestions, kept, k + 1)
  {
    hide KeysWithRoot, SuggestionOf;
  }

  /** The last loop: keep the groups with two or more members. */
  method ListGroups(fields: seq<Field>, records: seq<Record>, order: seq<string>, groups: map<string, seq<string>>,
          ghost root: map<string, string>)
      returns (suggestions: seq<Group>, ghost kept: seq<nat>)
    requires Covers(root, fields) && Sound(root, fields) && Complete(root, fields, |fields|, 0)
    requires Grouped(root, fields, order, groups, |fields|)
    requires records == AllRecords(fields, |fields|)
    ensures Listed(root, fields, order, suggestions, kept, |order|)
  {
    hide *;
    suggestions, kept := [], [];
    NothingListed(root, fields, order);
    for k := 0 to |order|
      invariant Listed(root, fields, order, suggestions, kept, k)
    {
      GroupAt(root, fields, order, groups, k);
      var members := groups[order[k]];
      if |members| >= 2 {
        var g := Group(members, Distinct(GroupTokens(records, members)));
        ThisIsAGroup(root, fields, order, groups, k, g);
        ListedMore(root, fields, order, suggestions, kept, k, g);
        suggestions, kept := suggestions + [g], kept + [k];
      } else {
        ListedSame(root, fields, order, suggestions, kept, k);
      }
    }
  }

  lemma NothingListed(root: map<string, string>, fields: seq<Field>, order: seq<string>)
    requires Covers(root, fields)
    ensures Listed(root, fields, order, [], [], 0)
  {
  }

  lemma GroupAt(root: map<string, string>, fields: seq<Field>, order: seq<string>, groups: map<string, seq<string>>,
          k: nat)
    requires Covers(root, fields) && Grouped(root, fields, order, groups, |fields|) && k < |order|
    ensures order[k] in groups && groups[order[k]] == KeysWithRoot(root, fields, order[k], |fields|)
    ensures RootSeen(root, fields, order[k], |fields|)
  {
  }

  lemma ThisIsAGroup(root: map<string, string>, fields: seq<Field>, order: seq<string>,
          groups: map<string, seq<string>>, k: nat, g: Group)
    requires Covers(root, fields) && Sound(root, fields) && Complete(root, fields, |fields|, 0)
    requires Grouped(root, fields, order, groups, |fields|) && k < |order|
    requires order[k] in groups && g.members == groups[order[k]] && |g.members| >= 2
    requires g.shared == Distinct(GroupTokens(AllRecords(fields, |fields|), g.members))
    ensures SuggestionOf(root, fields, order, g, k)
  {
    hide Sound, Complete, Grouped, KeysWithRoot, Component, Distinct, GroupTokens, AllRecords;
    GroupAt(root, fields, order, groups, k);
    var x: nat :| x < |fields| && root[fields[x].key] == order[k];
    ComponentIsClass(root, fields, x, |fields|);
    assert IsComponent(fields, g, x);
  }

  /** What the listing says about components. */
  lemma ListedMeans(root: map<string, string>, fields: seq<Field>, order: seq<string>,
          groups: map<string, seq<string>>, suggestions: seq<Group>, kept: seq<nat>)
    requires Covers(root, fields) && Sound(root, fields) && Complete(root, fields, |fields|, 0)
    requires Grouped(root, fields, order, groups, |fields|)
    requires Listed(root, fields, order, suggestions, kept, |order|)
    ensures forall t :: 0 <= t < |suggestions| ==> IsGroup(fields, suggestions[t])
    ensures forall x: nat :: x < |fields| && |Component(fields, x, |fields|)| >= 2 ==>
              exists t :: 0 <= t < |suggestions| && suggestions[t].members == Component(fields, x, |fields|)
    ensures forall t, u :: 0 <= t < u < |suggestions| ==> suggestions[t].members != suggestions[u].members
  {
    hide Sound, Complete, KeysWithRoot, Component, IsGroup;
    forall t | 0 <= t < |suggestions| ensures IsGroup(fields, suggestions[t]) {
      assert SuggestionOf(root, fields, order, suggestions[t], kept[t]);
    }
    forall t, u | 0 <= t < u < |suggestions| ensures suggestions[t].members != suggestions[u].members {
      assert SuggestionOf(root, fields, order, suggestions[t], kept[t]);
      assert SuggestionOf(root, fields, order, suggestions[u], kept[u]);
      MembersHaveRoot(root, fields, order[kept[t]], |fields|);
      MembersHaveRoot(root, fields, order[kept[u]], |fields|);
      assert root[suggestions[t].members[0]] == order[kept[t]] && root[suggestions[u].members[0]] == order[kept[u]];
    }
    forall x: nat | x < |fields| && |Component(fields, x, |fields|)| >= 2
      ensures exists t :: 0 <= t < |suggestions| && suggestions[t].members == Component(fields, x, |fields|)
    {
      ComponentIsClass(root, fields, x, |fields|);
      var r := root[fields[x].key];
      assert r in order;
      var u: nat :| u < |order| && order[u] == r;
      assert u in kept;
      var t :| 0 <= t < |kept| && kept[t] == u;
      assert SuggestionOf(root, fields, order, suggestions[t], u);
    }
  }

  // ----- What a group has -----

  /** A pair inside a group is recorded with its tokens. */
  lemma {:induction false} TokensOfRecord(records: seq<Record>, members: seq<string>, k: nat, t: string)
    requires k < |records| && records[k].a in members && records[k].b in members && t in records[k].shared
    ensures t in GroupTokens(records, members)
  {
    if k > 0 {
      TokensOfRecord(records[1..], members, k - 1, t);
    }
  }

  lemma {:induction false} RowRecorded(fields: seq<Field>, i: nat, j: nat, b: nat)
    requires i < b < j <= |fields| && Compatible(fields[i], fields[b])
    ensures Record(fields[i].key, fields[b].key, SharedTokens(fields[i].tokens, fields[b].tokens))
            in RowRecords(fields, i, j)
    decreases j
  {
    hide Compatible, SharedTokens;
    if b < j - 1 {
      RowRecorded(fields, i, j - 1, b);
    }
  }

  lemma {:induction false} PairRecorded(fields: seq<Field>, n: nat, a: nat, b: nat)
    requires a < n <= |fields| && a < b < |fields| && Compatible(fields[a], fields[b])
    ensures Record(fields[a].key, fields[b].key, SharedTokens(fields[a].tokens, fields[b].tokens))
            in AllRecords(fields, n)
  {
    hide Compatible, SharedTokens, RowRecords;
    if a == n - 1 {
      RowRecorded(fields, a, |fields|, b);
    } else {
      PairRecorded(fields, n - 1, a, b);
    }
  }

  lemma {:induction false} TokenHasRecord(records: seq<Record>, members: seq<string>, t: string) returns (k: nat)
    requires t in GroupTokens(records, members)
    ensures k < |records| && records[k].a in members && records[k].b in members && t in records[k].shared
  {
    if records[0].a in members && records[0].b in members && t in records[0].shared {
      k := 0;
    } else {
      k := TokenHasRecord(records[1..], members, t);
      k := k + 1;
    }
  }

  /** The record of fields `a` and `b`. */
  ghost predicate IsRecord(fields: seq<Field>, r: Record, a: nat, b: nat) {
    && a < b < |fields| && Compatible(fields[a], fields[b])
    && r == Record(fields[a].key, fields[b].key, SharedTokens(fields[a].tokens, fields[b].tokens))
  }

  lemma {:induction false} RowHasPair(fields: seq<Field>, i: nat, j: nat, r: Record) returns (b: nat)
    requires i < |fields| && j <= |fields| && r in RowRecords(fields, i, j)
    ensures IsRecord(fields, r, i, b)
    decreases j
  {
    hide Compatible, SharedTokens;
    if r in RowRecords(fields, i, j - 1) {
      b := RowHasPair(fields, i, j - 1, r);
    } else {
      b := j - 1;
    }
  }

  lemma {:induction false} RecordHasPair(fields: seq<Field>, n: nat, r: Record) returns (a: nat, b: nat)
    requires n <= |fields| && r in AllRecords(fields, n)
    ensures IsRecord(fields, r, a, b)
  {
    hide RowRecords, IsRecord;
    if r in AllRecords(fields, n - 1) {
      a, b := RecordHasPair(fields, n - 1, r);
    } else {
      a := n - 1;
      b := RowHasPair(fields, a, |fields|, r);
    }
  }

  /** Two compatible members of the group share the token, and it says something. */
  ghost predicate SharedBy(fields: seq<Field>, members: seq<string>, t: string, a: nat, b: nat) {
    && a < b < |fields| && fields[a].key in members && fields[b].key in members
    && Compatible(fields[a], fields[b])
    && t in fields[a].tokens && t in fields[b].tokens && !IsGeneric(t) && !IsDirectional(t)
  }

  /** A group's shared tokens are those some compatible pair of its members shares, each once. */
  lemma GroupSharedIs(fields: seq<Field>, g: Group, x: nat, t: string)
    requires IsComponent(fields, g, x)
    ensures t in g.shared <==> exists a: nat, b: nat :: SharedBy(fields, g.members, t, a, b)
    ensures forall i, j :: 0 <= i < j < |g.shared| ==> g.shared[i] != g.shared[j]
  {
    hide Compatible, SharedTokens, Component, AllRecords, GroupTokens, Distinct, IsGeneric, IsDirectional;
    var records := AllRecords(fields, |fields|);
    DistinctMeans(GroupTokens(records, g.members), t);
    if t in g.shared {
      var k := TokenHasRecord(records, g.members, t);
      var a, b := RecordHasPair(fields, |fields|, records[k]);
      SharedTokensMeans(fields[a].tokens, fields[b].tokens);
      assert SharedBy(fields, g.members, t, a, b);
    }
    if a: nat, b: nat :| SharedBy(fields, g.members, t, a, b) {
      PairRecorded(fields, |fields|, a, b);
      var shared := SharedTokens(fields[a].tokens, fields[b].tokens);
      var k :| 0 <= k < |records| && records[k] == Record(fields[a].key, fields[b].key, shared);
      SharedTokensMeans(fields[a].tokens, fields[b].tokens);
      TokensOfRecord(records, g.members, k, t);
    }
  }

  /** A path between different keys crosses a compatible pair. */
  lemma {:induction false} PathCrosses(fields: seq<Field>, p: seq<nat>, x: nat, y: nat) returns (t: nat)
    requires Path(fields, p, x, y) && fields[x].key != fields[y].key
    ensures t + 1 < |p| && p[t] != p[t + 1] && Compatible(fields[p[t]], fields[p[t + 1]])
    ensures Connected(fields, x, p[t]) && Connected(fields, x, p[t + 1])
    decreases |p|
  {
    hide Compatible;
    assert |p| > 1;
    assert Linked(fields, p[0], p[1]);
    LinkConnects(fields, p[0], p[1]);
    ConnectedReflexive(fields, x);
    if fields[p[0]].key != fields[p[1]].key {
      t := 0;
    } else {
      var q := p[1..];
      forall u | 0 <= u < |q| - 1 ensures Linked(fields, q[u], q[u + 1]) {
        var v := u + 1;
        assert Linked(fields, p[v], p[v + 1]);
      }
      var u := PathCrosses(fields, q, p[1], y);
      t := u + 1;
      ConnectedTransitive(fields, x, p[1], p[t]);
      ConnectedTransitive(fields, x, p[1], p[t + 1]);
    }
  }

  lemma {:induction false} InComponent(fields: seq<Field>, x: nat, n: nat, y: nat)
    requires y < n <= |fields| && Connected(fields, x, y)
    ensures fields[y].key in Component(fields, x, n)
  {
    hide Connected;
    if y < n - 1 {
      InComponent(fields, x, n - 1, y);
    }
  }

  /** Every group with two different keys has a shared token to name it by. */
  lemma GroupHasSharedToken(fields: seq<Field>, g: Group, x: nat, y: nat)
    requires IsComponent(fields, g, x) && y < |fields| && Connected(fields, x, y) && fields[x].key != fields[y].key
    ensures g.shared != []
  {
    hide Compatible, SharedTokens, Component, AllRecords, GroupTokens, Distinct, Connected;
    var p := SomePath(fields, x, y);
    var t := PathCrosses(fields, p, x, y);
    assert Linked(fields, p[t], p[t + 1]);
    var a, b := if p[t] < p[t + 1] then p[t] else p[t + 1], if p[t] < p[t + 1] then p[t + 1] else p[t];
    CompatibleSymmetric(fields[p[t]], fields[p[t + 1]]);
    PairRecorded(fields, |fields|, a, b);
    InComponent(fields, x, |fields|, a);
    InComponent(fields, x, |fields|, b);
    var records := AllRecords(fields, |fields|);
    var shared := SharedTokens(fields[a].tokens, fields[b].tokens);
    var k :| 0 <= k < |records| && records[k] == Record(fields[a].key, fields[b].key, shared);
    CompatibleShares(fields[a], fields[b]);
    TokensOfRecord(records, g.members, k, shared[0]);
    DistinctMeans(GroupTokens(records, g.members), shared[0]);
  }

  lemma SomePath(fields: seq<Field>, x: nat, y: nat) returns (p: seq<nat>)
    requires Connected(fields, x, y)
    ensures Path(fields, p, x, y)
  {
    p :| Path(fields, p, x, y);
  }

  lemma CompatibleShares(a: Field, b: Field)
    requires Compatible(a, b)
    ensures SharedTokens(a.tokens, b.tokens) != []
  {
  }

  // ----- Directions -----

  /** Conflicting directions are never joined as a pair... */
  lemma ConflictIsNoPair(a: Field, b: Field)
    requires Conflicting(a, b)
    ensures !Compatible(a, b) && !Compatible(b, a)
  {
  }

  /** ...but a neutral field joins both: `src_ip`, `ip` and `dst_ip` are one component. */
  lemma ConflictCanShareAGroup()
    ensures var src := Field("src_ip", ["source", "ip"], "ip");
            var ip := Field("ip", ["ip"], "ip");
            var dst := Field("dst_ip", ["destination", "ip"], "ip");
            Conflicting(src, dst) && Connected([src, ip, dst], 0, 2)
  {
    var src := Field("src_ip", ["source", "ip"], "ip");
    var ip := Field("ip", ["ip"], "ip");
    var dst := Field("dst_ip", ["destination", "ip"], "ip");
    assert src.tokens[0] != dst.tokens[0] by { assert "source"[0] != "destination"[0]; }
    assert "ip" in src.tokens by { assert src.tokens[1] == "ip"; }
    assert "ip" in dst.tokens by { assert dst.tokens[1] == "ip"; }
    assert "ip" in ip.tokens by { assert ip.tokens[0] == "ip"; }
    SharedTokensMeans(src.tokens, ip.tokens);
    SharedTokensMeans(ip.tokens, dst.tokens);
    NeutralToken();
    LinkConnects([src, ip, dst], 0, 1);
    LinkConnects([src, ip, dst], 1, 2);
    ConnectedTransitive([src, ip, dst], 0, 1, 2);
  }

  // ----- Where a group mixes what no pair may mix -----

  /** Fields that no pair may join because both have a label and the labels differ. */
  ghost predicate Clash(mark: Field -> Option<string>, a: Field, b: Field) {
    mark(a).Some? && mark(b).Some? && mark(a) != mark(b)
  }

  ghost function Direction(f: Field): Option<string> {
    DirectionOf(f.tokens)
  }

  ghost function KnownShape(f: Field): Option<string> {
    if f.shape == "unknown" then None else Some(f.shape)
  }

  /** A path between clashing fields on which no other field has a label. */
  ghost predicate Bridge(fields: seq<Field>, mark: Field -> Option<string>, p: seq<nat>) {
    && p != [] && Path(fields, p, p[0], p[|p| - 1])
    && Clash(mark, fields[p[0]], fields[p[|p| - 1]])
    && forall t :: 0 < t < |p| - 1 ==> mark(fields[p[t]]) == None
  }

  /** Every path between clashing fields holds a bridge. */
  lemma {:induction false} FindBridge(fields: seq<Field>, mark: Field -> Option<string>, p: seq<nat>, x: nat, y: nat)
      returns (q: seq<nat>)
    requires Path(fields, p, x, y) && Clash(mark, fields[x], fields[y])
    ensures Bridge(fields, mark, q)
    decreases |p|
  {
    hide Linked;
    if t :| 0 < t < |p| - 1 && mark(fields[p[t]]).Some? {
      if mark(fields[p[t]]) != mark(fields[x]) {
        q := FindBridge(fields, mark, p[..t + 1], x, p[t]);
      } else {
        assert p[t..|p|] == p[t..];
        q := FindBridge(fields, mark, p[t..], p[t], y);
      }
    } else {
      q := p;
    }
  }

  ghost predicate MixedGroup(fields: seq<Field>, mark: Field -> Option<string>, x: nat, y: nat) {
    x < |fields| && y < |fields| && Connected(fields, x, y) && Clash(mark, fields[x], fields[y])
  }

  lemma MixExactlyWhen(fields: seq<Field>, mark: Field -> Option<string>)
    ensures (exists x: nat, y: nat :: MixedGroup(fields, mark, x, y)) <==> exists p :: Bridge(fields, mark, p)
  {
    hide Clash, Path;
    if x: nat, y: nat :| MixedGroup(fields, mark, x, y) {
      var p := SomePath(fields, x, y);
      var q := FindBridge(fields, mark, p, x, y);
    }
    if p :| Bridge(fields, mark, p) {
      assert Path(fields, p, p[0], p[|p| - 1]);
      InRange(fields, p, p[0], p[|p| - 1]);
      assert MixedGroup(fields, mark, p[0], p[|p| - 1]);
    }
  }

  /** Some group holds fields of conflicting directions exactly when two such fields are joined
      by a chain of fields without a direction. */
  lemma GroupsMixExactlyWhen(fields: seq<Field>)
    ensures (exists x: nat, y: nat :: MixedGroup(fields, Direction, x, y)) <==>
            exists p :: Bridge(fields, Direction, p)
  {
    MixExactlyWhen(fields, Direction);
  }

  /** Some group holds fields of two known shapes exactly when two such fields are joined by a
      chain of fields of unknown shape. */
  lemma ShapesMixExactlyWhen(fields: seq<Field>)
    ensures (exists x: nat, y: nat :: MixedGroup(fields, KnownShape, x, y)) <==>
            exists p :: Bridge(fields, KnownShape, p)
  {
    MixExactlyWhen(fields, KnownShape);
  }

  /** Two fields of different known shapes share a group only if that group holds a field of
      unknown shape, or two fields with one key. */
  lemma ShapesMeetOnlyThrough(fields: seq<Field>, x: nat, y: nat) returns (i: nat, j: nat)
    requires x < |fields| && y < |fields| && Connected(fields, x, y)
    requires fields[x].shape != fields[y].shape && fields[x].shape != "unknown" && fields[y].shape != "unknown"
    ensures i < |fields| && j < |fields|
    ensures fields[i].shape == "unknown" || (fields[i].key == fields[j].key && fields[i].shape != fields[j].shape)
    ensures Connected(fields, x, i) && Connected(fields, x, j)
  {
    var p := SomePath(fields, x, y);
    i, j := UnknownOrSameKey(fields, p, x, y);
  }

  lemma {:induction false} UnknownOrSameKey(fields: seq<Field>, p: seq<nat>, x: nat, y: nat) returns (i: nat, j: nat)
    requires Path(fields, p, x, y)
    requires fields[x].shape != fields[y].shape && fields[x].shape != "unknown" && fields[y].shape != "unknown"
    ensures i < |fields| && j < |fields|
    ensures fields[i].shape == "unknown" || (fields[i].key == fields[j].key && fields[i].shape != fields[j].shape)
    ensures Connected(fields, x, i) && Connected(fields, x, j)
    decreases |p|
  {
    var next := p[1];
    assert Linked(fields, p[0], p[1]);
    LinkConnects(fields, x, next);
    ConnectedReflexive(fields, x);
    CompatibleMeans(fields[x], fields[next]);
    if fields[next].shape == "unknown" || fields[next].shape != fields[x].shape {
      i, j := next, x;
    } else {
      var q := p[1..];
      forall t | 0 <= t < |q| - 1 ensures Linked(fields, q[t], q[t + 1]) {
        var u := t + 1;
        assert Linked(fields, p[u], p[u + 1]);
      }
      i, j := UnknownOrSameKey(fields, q, next, y);
      ConnectedTransitive(fields, x, next, i);
      ConnectedTransitive(fields, x, next, j);
    }
  }

  lemma InRange(fields: seq<Field>, p: seq<nat>, x: nat, y: nat)
    requires Path(fields, p, x, y)
    ensures x < |fields| && y < |fields|
  {
  }

  lemma NeutralToken()
    ensures "ip" !in GENERIC && "ip" !in DIRECTIONAL
    ensures DirectionOf(["ip"]) == None
  {
  }
}
