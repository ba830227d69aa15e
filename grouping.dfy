/**
 * Grouping entries by issue into an insertion-ordered dictionary of lists,
 * the way the synchronizer's static `group...ByIssueId` builders do it.
 */
module Grouping {
  import opened Wrappers
  import opened Seqs
  import opened Entries

  /** An insertion-ordered dictionary of lists: `keys` in the order they were first added. */
  datatype Groups<K(==), V> = Groups(keys: seq<K>, groups: map<K, seq<V>>)

  /** Keys are listed once each, and exactly the keys of the map are listed. */
  ghost predicate WellFormed<K(!new), V>(g: Groups<K, V>) {
    && (forall i, j :: 0 <= i < j < |g.keys| ==> g.keys[i] != g.keys[j])
    && (forall k :: k in g.groups <==> k in g.keys)
  }

  function Empty<K(==), V>(): Groups<K, V> {
    Groups([], map[])
  }

  /** Appends `v` to the list of `k`, opening a new group at the end when `k` is new. */
  function Add<K(==), V>(g: Groups<K, V>, k: K, v: V): Groups<K, V> {
    if k in g.groups then Groups(g.keys, g.groups[k := g.groups[k] + [v]])
    else Groups(g.keys + [k], g.groups[k := [v]])
  }

  /** Adds the elements of `xs` in input order, skipping those that have no key. */
  function GroupInto<T, K(==)>(g: Groups<K, T>, xs: seq<T>, key: T -> Option<K>): Groups<K, T>
    decreases |xs|
  {
    if xs == [] then g
    else
      var g' := match key(xs[0]) case None => g case Some(k) => Add(g, k, xs[0]);
      GroupInto(g', xs[1..], key)
  }

  function GroupBy<T, K(==)>(xs: seq<T>, key: T -> Option<K>): Groups<K, T> {
    GroupInto(Empty(), xs, key)
  }

  /** The elements of `xs` whose key is `k`, in input order. */
  function KeyedBy<T(!new), K(==)>(xs: seq<T>, key: T -> Option<K>, k: K): seq<T> {
    Filter(xs, x => key(x) == Some(k))
  }

  /** The list of `k`, or the empty list when `k` has no group. */
  function GroupOf<K(==), V>(g: Groups<K, V>, k: K): seq<V> {
    if k in g.groups then g.groups[k] else []
  }

  lemma KeyedByCons<T(!new), K>(xs: seq<T>, key: T -> Option<K>, k: K)
    requires xs != []
    ensures KeyedBy(xs, key, k) == (if key(xs[0]) == Some(k) then [xs[0]] else []) + KeyedBy(xs[1..], key, k)
  {
  }

  /** A group keeps the elements of the input told apart by `f` told apart. */
  lemma KeyedByInjective<T(!new), K, J>(xs: seq<T>, key: T -> Option<K>, k: K, f: T -> J)
    requires Injective(xs, f)
    ensures Injective(KeyedBy(xs, key, k), f)
  {
    FilterInjective(xs, x => key(x) == Some(k), f);
  }

  /** Grouping keeps the dictionary well formed. */
  lemma {:induction false} GroupIntoWellFormed<T, K(!new)>(g: Groups<K, T>, xs: seq<T>, key: T -> Option<K>)
    requires WellFormed(g)
    ensures WellFormed(GroupInto(g, xs, key))
    ensures g.keys <= GroupInto(g, xs, key).keys
    decreases |xs|
  {
    if xs != [] {
      var g' := match key(xs[0]) case None => g case Some(k) => Add(g, k, xs[0]);
      assert WellFormed(g');
      GroupIntoWellFormed(g', xs[1..], key);
    }
  }

  /**
   * What grouping adds to the list of `k` is exactly the elements of `xs`
   * whose key is `k`, in input order.
   */
  lemma {:induction false} GroupIntoContents<T(!new), K>(g: Groups<K, T>, xs: seq<T>, key: T -> Option<K>, k: K)
    ensures GroupOf(GroupInto(g, xs, key), k) == GroupOf(g, k) + KeyedBy(xs, key, k)
    decreases |xs|
  {
    if xs == [] {
      assert GroupOf(g, k) + [] == GroupOf(g, k);
    } else {
      var g' := match key(xs[0]) case None => g case Some(k') => Add(g, k', xs[0]);
      GroupIntoContents(g', xs[1..], key, k);
      KeyedByCons(xs, key, k);
      GroupOfStep(g, xs[0], key, k);
    }
  }

  /** One step of grouping adds `x` to the list of its own key only. */
  lemma GroupOfStep<T, K>(g: Groups<K, T>, x: T, key: T -> Option<K>, k: K)
    ensures var g' := match key(x) case None => g case Some(k') => Add(g, k', x);
            GroupOf(g', k) == GroupOf(g, k) + (if key(x) == Some(k) then [x] else [])
  {
    if key(x).None? || key(x) != Some(k) {
      assert GroupOf(g, k) + [] == GroupOf(g, k);
    }
  }

  /** Key `k` gets a group exactly when it had one or some element of `xs` carries it. */
  lemma {:induction false} GroupIntoKeys<T(!new), K>(g: Groups<K, T>, xs: seq<T>, key: T -> Option<K>, k: K)
    ensures k in GroupInto(g, xs, key).groups <==> k in g.groups || KeyedBy(xs, key, k) != []
    decreases |xs|
  {
    if xs != [] {
      var g' := match key(xs[0]) case None => g case Some(k') => Add(g, k', xs[0]);
      GroupIntoKeys(g', xs[1..], key, k);
      KeyedByCons(xs, key, k);
    }
  }

  /** Grouping a concatenation is grouping the second part into the groups of the first. */
  lemma {:induction false} GroupIntoAppend<T, K>(g: Groups<K, T>, a: seq<T>, b: seq<T>, key: T -> Option<K>)
    ensures GroupInto(g, a + b, key) == GroupInto(GroupInto(g, a, key), b, key)
    decreases |a|
  {
    if a == [] {
      assert a + b == b;
    } else {
      assert (a + b)[0] == a[0];
      assert (a + b)[1..] == a[1..] + b;
      var g' := match key(a[0]) case None => g case Some(k) => Add(g, k, a[0]);
      GroupIntoAppend(g', a[1..], b, key);
    }
  }

  /**
   * Grouping is a partition of the keyed elements: the groups are exactly the
   * keys that occur, and each group lists exactly the elements with that key,
   * in input order.
   */
  lemma GroupByPartition<T(!new), K(!new)>(xs: seq<T>, key: T -> Option<K>)
    ensures WellFormed(GroupBy(xs, key))
    ensures forall k :: k in GroupBy(xs, key).groups <==> exists x :: x in xs && key(x) == Some(k)
    ensures forall k :: k in GroupBy(xs, key).groups ==> GroupBy(xs, key).groups[k] == KeyedBy(xs, key, k)
  {
    var e: Groups<K, T> := Empty();
    GroupIntoWellFormed(e, xs, key);
    forall k
      ensures k in GroupBy(xs, key).groups <==> exists x :: x in xs && key(x) == Some(k)
      ensures k in GroupBy(xs, key).groups ==> GroupBy(xs, key).groups[k] == KeyedBy(xs, key, k)
    {
      GroupIntoContents(e, xs, key, k);
      GroupIntoKeys(e, xs, key, k);
      var ks := KeyedBy(xs, key, k);
      if ks != [] {
        assert ks[0] in ks;
      }
    }
  }

  /** `s` without the elements of `drop`, in order. */
  function Minus<K(==)>(s: seq<K>, drop: set<K>): seq<K>
    decreases |s|
  {
    if s == [] then [] else (if s[0] in drop then [] else [s[0]]) + Minus(s[1..], drop)
  }

  /**
   * The keys of `xs` in the order of their first occurrence, each once: a key
   * is listed at its first element and dropped from what follows.
   */
  function FirstKeys<T, K(==)>(xs: seq<T>, key: T -> Option<K>): seq<K>
    decreases |xs|
  {
    if xs == [] then []
    else
      var rest := FirstKeys(xs[1..], key);
      match key(xs[0])
      case None => rest
      case Some(k) => [k] + Minus(rest, {k})
  }

  lemma MinusCons<K>(x: K, s: seq<K>, drop: set<K>)
    ensures Minus([x] + s, drop) == (if x in drop then [] else [x]) + Minus(s, drop)
  {
    assert ([x] + s)[0] == x && ([x] + s)[1..] == s;
  }

  /** Dropping two sets one after the other is dropping their union. */
  lemma {:induction false} MinusMinus<K>(s: seq<K>, a: set<K>, b: set<K>)
    ensures Minus(Minus(s, a), b) == Minus(s, a + b)
    decreases |s|
  {
    if s != [] {
      MinusMinus(s[1..], a, b);
      if s[0] in a {
        assert Minus(s, a) == Minus(s[1..], a);
        assert Minus(s, a + b) == Minus(s[1..], a + b);
      } else {
        assert Minus(s, a) == [s[0]] + Minus(s[1..], a);
        MinusCons(s[0], Minus(s[1..], a), b);
      }
    }
  }

  /** Dropping nothing keeps the list. */
  lemma {:induction false} MinusNothing<K>(s: seq<K>)
    ensures Minus(s, {}) == s
    decreases |s|
  {
    if s != [] {
      MinusNothing(s[1..]);
      assert s == [s[0]] + s[1..];
    }
  }

  /** Grouping lists the keys already present, then the new keys of `xs` in first-seen order. */
  lemma {:induction false} GroupIntoKeyOrder<T, K(!new)>(g: Groups<K, T>, xs: seq<T>, key: T -> Option<K>)
    requires WellFormed(g)
    ensures GroupInto(g, xs, key).keys == g.keys + Minus(FirstKeys(xs, key), g.groups.Keys)
    decreases |xs|
  {
    if xs == [] {
      assert g.keys + [] == g.keys;
    } else {
      var rest := FirstKeys(xs[1..], key);
      match key(xs[0])
      case None =>
        GroupIntoKeyOrder(g, xs[1..], key);
      case Some(k) =>
        var g' := Add(g, k, xs[0]);
        assert WellFormed(g');
        GroupIntoKeyOrder(g', xs[1..], key);
        AddKeyOrder(g, k, xs[0], rest);
    }
  }

  /** Adding under `k` and then the keys of `rest` lists the same keys as listing `k` first. */
  lemma AddKeyOrder<K, T>(g: Groups<K, T>, k: K, x: T, rest: seq<K>)
    ensures var g' := Add(g, k, x);
            g'.keys + Minus(rest, g'.groups.Keys) == g.keys + Minus([k] + Minus(rest, {k}), g.groups.Keys)
  {
    var g' := Add(g, k, x);
    MinusCons(k, Minus(rest, {k}), g.groups.Keys);
    MinusMinus(rest, {k}, g.groups.Keys);
    if k in g.groups {
      assert g'.groups.Keys == {k} + g.groups.Keys;
    } else {
      assert g'.groups.Keys == {k} + g.groups.Keys;
      assert g'.keys == g.keys + [k];
    }
  }

  /** The keys of a grouping are the keys of the input in the order they first occur. */
  lemma GroupByKeys<T, K(!new)>(xs: seq<T>, key: T -> Option<K>)
    ensures GroupBy(xs, key).keys == FirstKeys(xs, key)
  {
    var e: Groups<K, T> := Empty();
    GroupIntoKeyOrder(e, xs, key);
    assert e.groups.Keys == {};
    MinusNothing(FirstKeys(xs, key));
  }

  /** An element without a key leaves the grouping as it is. */
  lemma GroupBySkipsUnkeyed<T, K>(xs: seq<T>, x: T, ys: seq<T>, key: T -> Option<K>)
    requires key(x).None?
    ensures GroupBy(xs + [x] + ys, key) == GroupBy(xs + ys, key)
  {
    var e: Groups<K, T> := Empty();
    GroupIntoAppend(e, xs + [x], ys, key);
    GroupIntoAppend(e, xs, [x], key);
    GroupIntoAppend(e, xs, ys, key);
  }

  /** A run of elements whose key already has a group extends that group, in order. */
  lemma {:induction false} GroupRunExisting<T, K>(g: Groups<K, T>, run: seq<T>, key: T -> Option<K>, k: K)
    requires k in g.groups
    requires forall i :: 0 <= i < |run| ==> key(run[i]) == Some(k)
    ensures GroupInto(g, run, key) == Groups(g.keys, g.groups[k := g.groups[k] + run])
    decreases |run|
  {
    if run == [] {
      assert g.groups[k] + run == g.groups[k];
    } else {
      assert key(run[0]) == Some(k);
      var g' := Groups(g.keys, g.groups[k := g.groups[k] + [run[0]]]);
      assert Add(g, k, run[0]) == g';
      GroupRunExisting(g', run[1..], key, k);
      assert g'.groups[k] + run[1..] == g.groups[k] + run by {
        assert [run[0]] + run[1..] == run;
      }
    }
  }

  /** A run of elements sharing a key that has no group yet opens one group, at the end, holding the run. */
  lemma GroupRunNew<T, K>(g: Groups<K, T>, run: seq<T>, key: T -> Option<K>, k: K)
    requires k !in g.groups && run != []
    requires forall i :: 0 <= i < |run| ==> key(run[i]) == Some(k)
    ensures GroupInto(g, run, key) == Groups(g.keys + [k], g.groups[k := run])
  {
    assert key(run[0]) == Some(k);
    var g' := Groups(g.keys + [k], g.groups[k := [run[0]]]);
    assert Add(g, k, run[0]) == g';
    GroupRunExisting(g', run[1..], key, k);
    assert [run[0]] + run[1..] == run;
  }

  /** Two runs on two different keys make two groups, in the order of the runs. */
  lemma GroupTwoRuns<T, K>(r1: seq<T>, r2: seq<T>, key: T -> Option<K>, k1: K, k2: K)
    requires r1 != [] && r2 != [] && k1 != k2
    requires forall i :: 0 <= i < |r1| ==> key(r1[i]) == Some(k1)
    requires forall i :: 0 <= i < |r2| ==> key(r2[i]) == Some(k2)
    ensures GroupBy(r1 + r2, key) == Groups([k1, k2], map[k1 := r1, k2 := r2])
  {
    var e: Groups<K, T> := Empty();
    GroupRunNew(e, r1, key, k1);
    GroupRunNew(GroupInto(e, r1, key), r2, key, k2);
    GroupIntoAppend(e, r1, r2, key);
  }

  /** Three runs on three different keys make three groups, in the order of the runs. */
  lemma GroupThreeRuns<T, K>(r1: seq<T>, r2: seq<T>, r3: seq<T>, key: T -> Option<K>, k1: K, k2: K, k3: K)
    requires r1 != [] && r2 != [] && r3 != [] && k1 != k2 && k1 != k3 && k2 != k3
    requires forall i :: 0 <= i < |r1| ==> key(r1[i]) == Some(k1)
    requires forall i :: 0 <= i < |r2| ==> key(r2[i]) == Some(k2)
    requires forall i :: 0 <= i < |r3| ==> key(r3[i]) == Some(k3)
    ensures GroupBy(r1 + r2 + r3, key) == Groups([k1, k2, k3], map[k1 := r1, k2 := r2, k3 := r3])
  {
    GroupTwoRuns(r1, r2, key, k1, k2);
    GroupRunNew(GroupBy(r1 + r2, key), r3, key, k3);
    GroupIntoAppend(Empty(), r1 + r2, r3, key);
  }

  /** Four runs on four different keys make four groups, in the order of the runs. */
  lemma GroupFourRuns<T, K>(r1: seq<T>, r2: seq<T>, r3: seq<T>, r4: seq<T>, key: T -> Option<K>, k1: K, k2: K, k3: K, k4: K)
    requires r1 != [] && r2 != [] && r3 != [] && r4 != []
    requires k1 != k2 && k1 != k3 && k1 != k4 && k2 != k3 && k2 != k4 && k3 != k4
    requires forall i :: 0 <= i < |r1| ==> key(r1[i]) == Some(k1)
    requires forall i :: 0 <= i < |r2| ==> key(r2[i]) == Some(k2)
    requires forall i :: 0 <= i < |r3| ==> key(r3[i]) == Some(k3)
    requires forall i :: 0 <= i < |r4| ==> key(r4[i]) == Some(k4)
    ensures GroupBy(r1 + r2 + r3 + r4, key) == Groups([k1, k2, k3, k4], map[k1 := r1, k2 := r2, k3 := r3, k4 := r4])
  {
    GroupThreeRuns(r1, r2, r3, key, k1, k2, k3);
    GroupRunNew(GroupBy(r1 + r2 + r3, key), r4, key, k4);
    GroupIntoAppend(Empty(), r1 + r2 + r3, r4, key);
  }

  /**
   * `groupTogglByIssueId`: Toggl entries grouped by the issue id in their
   * description; entries without one are left out. The groups come in the
   * order in which their issue is first named.
   */
  function GroupTogglByIssueId(es: seq<TogglEntry>): (g: Groups<string, TogglEntry>)
    ensures g.keys == FirstKeys(es, IssueOf)
  {
    GroupByKeys(es, IssueOf);
    GroupBy(es, IssueOf)
  }

  /**
   * The Toggl groups are exactly the issues named by some entry, each holding
   * the entries that name it, in input order.
   */
  lemma GroupTogglPartition(es: seq<TogglEntry>)
    ensures var g := GroupTogglByIssueId(es);
            && WellFormed(g)
            && (forall k :: k in g.groups <==> exists e :: e in es && IssueOf(e) == Some(k))
            && (forall k :: k in g.groups ==> g.groups[k] == KeyedBy(es, IssueOf, k))
  {
    GroupByPartition(es, IssueOf);
  }

  /**
   * `groupDestinationByIssueId`: destination entries grouped by their issue
   * normalised to a string, so that the keys match the Toggl side.
   */
  function GroupDestinationByIssueId(ds: seq<DestEntry>): (g: Groups<string, DestEntry>)
    ensures WellFormed(g)
    ensures forall k :: k in g.groups <==> exists d :: d in ds && KeyToString(d.issue) == k
    ensures forall k :: k in g.groups ==> g.groups[k] == KeyedBy(ds, IssueKeyOf, k)
  {
    GroupByPartition(ds, IssueKeyOf);
    GroupBy(ds, IssueKeyOf)
  }

  /** `groupRedmineByIssueId`: destination entries grouped by their issue as the tracker gives it. */
  function GroupRedmineByIssueId(ds: seq<DestEntry>): (g: Groups<RawKey, DestEntry>)
    ensures WellFormed(g)
    ensures forall k :: k in g.groups <==> exists d :: d in ds && d.issue == k
    ensures forall k :: k in g.groups ==> g.groups[k] == KeyedBy(ds, RawIssueOf, k)
  {
    GroupByPartition(ds, RawIssueOf);
    GroupBy(ds, RawIssueOf)
  }

}
