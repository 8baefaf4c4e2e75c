/**
 * The order in which buildings step in one tick (`getTopOrder` in
 * BasicSimulation.java): Kahn's algorithm over the "is a source of" graph.
 *
 * A building is named by its key in the simulation's table and `srcs` maps
 * each key to the building's source list. Source names that are not keys
 * are ignored; a key listed twice as a source counts twice. The two hash
 * iteration orders the Java code depends on (the values view when building
 * the graph, the entry view when seeding the queue) are left open.
 */
module TopologicalOrder {
  import opened Wrappers

  /** The entries of `l` that are keys and not yet in `listed`, counted with multiplicity. */
  ghost function CountUnlisted(l: seq<string>, keys: set<string>, listed: set<string>): nat
  {
    if l == [] then 0
    else CountUnlisted(l[..|l| - 1], keys, listed) + (if l[|l| - 1] in keys && l[|l| - 1] !in listed then 1 else 0)
  }

  /** No entry is waiting exactly when every present entry is already listed. */
  lemma {:induction false} CountUnlistedZero(l: seq<string>, keys: set<string>, listed: set<string>)
    ensures CountUnlisted(l, keys, listed) == 0 <==> forall x :: x in l && x in keys ==> x in listed
  {
    if l != [] {
      var t := l[..|l| - 1];
      CountUnlistedZero(t, keys, listed);
      assert l == t + [l[|l| - 1]];
    }
  }

  /** Listing one more present name `c` removes exactly its occurrences from the count. */
  lemma {:induction false} CountUnlistedRemove(l: seq<string>, keys: set<string>, listed: set<string>, c: string)
    requires c in keys && c !in listed
    ensures CountUnlisted(l, keys, listed + {c}) == CountUnlisted(l, keys, listed) - multiset(l)[c]
  {
    if l != [] {
      var t := l[..|l| - 1];
      CountUnlistedRemove(t, keys, listed, c);
      assert l == t + [l[|l| - 1]];
    }
  }

  /** Extending a prefix by one entry adds one exactly when that entry is a key. */
  lemma CountStep(l: seq<string>, keys: set<string>, j: nat)
    requires j < |l|
    ensures CountUnlisted(l[..j + 1], keys, {}) == CountUnlisted(l[..j], keys, {}) + (if l[j] in keys then 1 else 0)
  {
    assert l[..j + 1][..j] == l[..j];
  }

  /** Every listed building comes after each of its sources that is present. */
  ghost predicate SourcesFirst(sorted: seq<string>, srcs: map<string, seq<string>>)
  {
    forall i, s :: 0 <= i < |sorted| && sorted[i] in srcs && s in srcs[sorted[i]] && s in srcs ==> s in sorted[..i]
  }

  /** Every building left out has a present source that is left out too. */
  ghost predicate BlockedUnlisted(sorted: seq<string>, srcs: map<string, seq<string>>)
  {
    forall b :: b in srcs && b !in sorted ==> WaitsOnUnlisted(sorted, srcs, b)
  }

  /** `b` has a present source that is not listed. */
  ghost predicate WaitsOnUnlisted(sorted: seq<string>, srcs: map<string, seq<string>>, b: string)
    requires b in srcs
  {
    exists s :: s in srcs[b] && s in srcs && s !in sorted
  }

  /**
   * `graph` holds, for each present source `s`, one edge to each building
   * `x` of `done` per occurrence of `s` in the source list of `x`.
   */
  ghost predicate EdgesOf(graph: map<string, seq<string>>, srcs: map<string, seq<string>>, done: set<string>)
  {
    graph.Keys == srcs.Keys &&
    forall s, x {:trigger multiset(graph[s])[x]} :: s in srcs ==>
      multiset(graph[s])[x] == if x in done && x in srcs then multiset(srcs[x])[s] else 0
  }

  /** `inDegree` counts the present source entries of each building of `done`, and is 0 elsewhere. */
  ghost predicate DegreesOf(inDegree: map<string, int>, srcs: map<string, seq<string>>, done: set<string>)
  {
    inDegree.Keys == srcs.Keys &&
    forall x :: x in srcs ==> inDegree[x] == if x in done then CountUnlisted(srcs[x], srcs.Keys, {}) else 0
  }

  /** `graph'` is `graph` with one edge from each entry of `prefix` that is a key to `b`. */
  ghost predicate EdgesAdded(graph: map<string, seq<string>>, graph': map<string, seq<string>>, keys: set<string>, b: string, prefix: seq<string>)
  {
    graph.Keys == keys && graph'.Keys == keys &&
    forall s, x :: s in keys ==> multiset(graph'[s])[x] == multiset(graph[s])[x] + (if x == b then multiset(prefix)[s] else 0)
  }

  /** An entry that is a key adds its edge to `b`. */
  lemma EdgesAddedKey(graph: map<string, seq<string>>, graph': map<string, seq<string>>, keys: set<string>, b: string, sources: seq<string>, j: nat)
    requires j < |sources| && sources[j] in keys
    requires EdgesAdded(graph, graph', keys, b, sources[..j])
    ensures EdgesAdded(graph, graph'[sources[j] := graph'[sources[j]] + [b]], keys, b, sources[..j + 1])
  {
    var source := sources[j];
    var g := graph'[source := graph'[source] + [b]];
    assert sources[..j + 1] == sources[..j] + [source];
    forall s, x | s in keys
      ensures multiset(g[s])[x] == multiset(graph[s])[x] + (if x == b then multiset(sources[..j + 1])[s] else 0)
    {
      if s == source {
        assert multiset(g[s]) == multiset(graph'[s]) + multiset{b};
      }
    }
  }

  /** An entry that is not a key adds no edge. */
  lemma EdgesAddedOther(graph: map<string, seq<string>>, graph': map<string, seq<string>>, keys: set<string>, b: string, sources: seq<string>, j: nat)
    requires j < |sources| && sources[j] !in keys
    requires EdgesAdded(graph, graph', keys, b, sources[..j])
    ensures EdgesAdded(graph, graph', keys, b, sources[..j + 1])
  {
    assert sources[..j + 1] == sources[..j] + [sources[j]];
  }

  /** The inner loop of the graph construction: the edges into one building `b`. */
  method AddEdges(graph: map<string, seq<string>>, inDegree: map<string, int>, keys: set<string>, b: string, sources: seq<string>)
    returns (graph': map<string, seq<string>>, inDegree': map<string, int>)
    requires graph.Keys == keys && inDegree.Keys == keys && b in keys
    ensures graph'.Keys == keys && inDegree'.Keys == keys
    ensures forall s, x :: s in keys ==> multiset(graph'[s])[x] == multiset(graph[s])[x] + (if x == b then multiset(sources)[s] else 0)
    ensures inDegree'[b] == inDegree[b] + CountUnlisted(sources, keys, {})
    ensures forall x :: x in keys && x != b ==> inDegree'[x] == inDegree[x]
  {
    graph', inDegree' := graph, inDegree;
    var j := 0;
    while j < |sources|
      invariant 0 <= j <= |sources|
      invariant graph'.Keys == keys && inDegree'.Keys == keys
      invariant EdgesAdded(graph, graph', keys, b, sources[..j])
      invariant inDegree'[b] == inDegree[b] + CountUnlisted(sources[..j], keys, {})
      invariant forall x :: x in keys && x != b ==> inDegree'[x] == inDegree[x]
    {
      var source := sources[j];
      CountStep(sources, keys, j);
      if source in keys {
        EdgesAddedKey(graph, graph', keys, b, sources, j);
        graph' := graph'[source := graph'[source] + [b]];
        inDegree' := inDegree'[b := inDegree'[b] + 1];
      } else {
        EdgesAddedOther(graph, graph', keys, b, sources, j);
      }
      j := j + 1;
    }
    assert sources[..j] == sources;
  }

  /** Adding the edges into a new building `b` extends the edge invariant to `b`. */
  lemma ExtendEdges(graph: map<string, seq<string>>, graph': map<string, seq<string>>, srcs: map<string, seq<string>>, done: set<string>, b: string)
    requires EdgesOf(graph, srcs, done)
    requires b in srcs && b !in done
    requires graph'.Keys == srcs.Keys
    requires forall s, x :: s in srcs ==> multiset(graph'[s])[x] == multiset(graph[s])[x] + (if x == b then multiset(srcs[b])[s] else 0)
    ensures EdgesOf(graph', srcs, done + {b})
  {
    forall s, x | s in srcs
      ensures multiset(graph'[s])[x] == if x in done + {b} && x in srcs then multiset(srcs[x])[s] else 0
    {
      assert multiset(graph[s])[x] == if x in done && x in srcs then multiset(srcs[x])[s] else 0;
    }
  }

  /** Counting the source entries of a new building `b` extends the degree invariant to `b`. */
  lemma ExtendDegrees(inDegree: map<string, int>, inDegree': map<string, int>, srcs: map<string, seq<string>>, done: set<string>, b: string)
    requires DegreesOf(inDegree, srcs, done)
    requires b in srcs && b !in done
    requires inDegree'.Keys == srcs.Keys
    requires inDegree'[b] == inDegree[b] + CountUnlisted(srcs[b], srcs.Keys, {})
    requires forall x :: x in srcs && x != b ==> inDegree'[x] == inDegree[x]
    ensures DegreesOf(inDegree', srcs, done + {b})
  {
  }

  /**
   * The graph `getTopOrder` builds: for each present source, one edge to a
   * building per occurrence in that building's source list; and each
   * building's in-degree, its number of present source entries.
   */
  method BuildGraph(srcs: map<string, seq<string>>) returns (graph: map<string, seq<string>>, inDegree: map<string, int>)
    ensures EdgesOf(graph, srcs, srcs.Keys) && DegreesOf(inDegree, srcs, srcs.Keys)
  {
    var keys := srcs.Keys;
    graph := map n | n in keys :: [];
    inDegree := map n | n in keys :: 0;
    var order := EnumerateSet(keys);
    ghost var done: set<string> := {};
    var i := 0;
    while i < |order|
      invariant 0 <= i <= |order|
      invariant forall x :: x in done <==> x in order[..i]
      invariant EdgesOf(graph, srcs, done) && DegreesOf(inDegree, srcs, done)
    {
      var b := order[i];
      assert b in keys by { assert b in (set x | x in order); }
      assert b !in order[..i];
      var graph', inDegree' := AddEdges(graph, inDegree, keys, b, srcs[b]);
      ExtendEdges(graph, graph', srcs, done, b);
      ExtendDegrees(inDegree, inDegree', srcs, done, b);
      graph, inDegree := graph', inDegree';
      PrefixStep(order, i);
      done := done + {b};
      i := i + 1;
    }
    assert order[..i] == order;
    assert done == keys by {
      forall x
        ensures x in done <==> x in keys
      {
        assert x in keys <==> x in (set y | y in order);
      }
    }
  }

  /** One more element of a list's prefix. */
  lemma PrefixStep<T>(s: seq<T>, i: nat)
    requires i < |s|
    ensures forall x :: x in s[..i + 1] <==> x in s[..i] || x == s[i]
  {
    Snoc(s, i);
  }

  /** Appending a building whose present sources are all listed keeps sources first. */
  lemma SourcesFirstAppend(sorted: seq<string>, b: string, srcs: map<string, seq<string>>)
    requires SourcesFirst(sorted, srcs)
    requires b in srcs ==> forall s :: s in srcs[b] && s in srcs ==> s in sorted
    ensures SourcesFirst(sorted + [b], srcs)
  {
    var t := sorted + [b];
    forall i, s | 0 <= i < |t| && t[i] in srcs && s in srcs[t[i]] && s in srcs
      ensures s in t[..i]
    {
      if i < |sorted| {
        assert t[..i] == sorted[..i];
      } else {
        assert t[..i] == sorted;
      }
    }
  }

  /** A prefix holds no more of any element than the whole list. */
  lemma PrefixMultiset<T>(s: seq<T>, k: nat)
    requires k <= |s|
    ensures multiset(s[..k]) <= multiset(s)
  {
    assert s == s[..k] + s[k..];
  }

  /**
   * Listing `current` lowers the count of each building `x` by the number of
   * edges from `current` to `x`, and every edge leads to a present building.
   */
  lemma ListingLowersDegrees(srcs: map<string, seq<string>>, graph: map<string, seq<string>>, listed: set<string>, current: string)
    requires EdgesOf(graph, srcs, srcs.Keys)
    requires current in srcs && current !in listed
    ensures forall x :: x in srcs ==>
      CountUnlisted(srcs[x], srcs.Keys, listed + {current}) == CountUnlisted(srcs[x], srcs.Keys, listed) - multiset(graph[current])[x]
    ensures forall x :: x in graph[current] ==> x in srcs
  {
    forall x | x in srcs
      ensures CountUnlisted(srcs[x], srcs.Keys, listed + {current}) == CountUnlisted(srcs[x], srcs.Keys, listed) - multiset(graph[current])[x]
    {
      CountUnlistedRemove(srcs[x], srcs.Keys, listed, current);
      assert multiset(graph[current])[x] == multiset(srcs[x])[current];
    }
    forall x | x in graph[current]
      ensures x in srcs
    {
      assert multiset(graph[current])[x] > 0;
    }
  }

  /** The queue's seeds: the buildings of in-degree 0, in the entry view's order. */
  method SeedQueue(inDegree: map<string, int>) returns (queue: seq<string>)
    ensures NoDup(queue)
    ensures forall x :: x in queue <==> x in inDegree && inDegree[x] == 0
  {
    var seeds := EnumerateSet(inDegree.Keys);
    queue := [];
    var k := 0;
    while k < |seeds|
      invariant 0 <= k <= |seeds|
      invariant NoDup(queue)
      invariant forall x :: x in queue <==> x in seeds[..k] && x in inDegree && inDegree[x] == 0
    {
      var name := seeds[k];
      assert name in inDegree by { assert name in (set y | y in seeds); }
      assert name !in seeds[..k];
      Snoc(seeds, k);
      if inDegree[name] == 0 {
        queue := queue + [name];
      }
      k := k + 1;
    }
    assert seeds[..k] == seeds;
    forall x | x in inDegree
      ensures x in seeds
    {
      assert x in (set y | y in seeds);
    }
  }

  /**
   * `inDegree'` and `queue'` once the edges to `released` are released:
   * each count is lowered by the edges to it, and the queue holds, beyond
   * the listed buildings, exactly those whose count is 0.
   */
  ghost predicate Released(inDegree: map<string, int>, released: seq<string>, sorted: seq<string>, inDegree': map<string, int>, queue': seq<string>)
  {
    inDegree'.Keys == inDegree.Keys &&
    (forall x :: x in inDegree ==> inDegree'[x] == inDegree[x] - multiset(released)[x]) &&
    NoDup(queue') && (forall x :: x in queue' ==> x !in sorted && x in inDegree) &&
    (forall x :: x in inDegree ==> (inDegree'[x] == 0 <==> x in sorted || x in queue'))
  }

  /** Releasing the next edge keeps `Released`. */
  lemma ReleasedStep(inDegree: map<string, int>, neighbors: seq<string>, j: nat, sorted: seq<string>, d: map<string, int>, q: seq<string>)
    requires j < |neighbors| && neighbors[j] in inDegree
    requires inDegree[neighbors[j]] >= multiset(neighbors)[neighbors[j]]
    requires Released(inDegree, neighbors[..j], sorted, d, q)
    ensures var n := neighbors[j];
      var d' := d[n := d[n] - 1];
      Released(inDegree, neighbors[..j + 1], sorted, d', if d'[n] == 0 then q + [n] else q)
  {
    var n := neighbors[j];
    Snoc(neighbors, j);
    PrefixMultiset(neighbors, j + 1);
    assert d[n] >= 1;
  }

  /**
   * The inner loop of Kahn's algorithm: each edge out of the building just
   * listed lowers its target's in-degree by one, and a target whose
   * in-degree reaches 0 joins the back of the queue.
   */
  method Release(inDegree: map<string, int>, queue: seq<string>, neighbors: seq<string>, ghost sorted: seq<string>)
    returns (inDegree': map<string, int>, queue': seq<string>)
    requires forall x :: x in neighbors ==> x in inDegree
    requires forall x :: x in inDegree ==> inDegree[x] >= multiset(neighbors)[x]
    requires NoDup(queue) && forall x :: x in queue ==> x !in sorted && x in inDegree
    requires forall x :: x in inDegree ==> (inDegree[x] == 0 <==> x in sorted || x in queue)
    ensures Released(inDegree, neighbors, sorted, inDegree', queue')
  {
    inDegree', queue' := inDegree, queue;
    var j := 0;
    ReleasedStart(inDegree, neighbors, sorted, queue);
    while j < |neighbors|
      invariant 0 <= j <= |neighbors|
      invariant Released(inDegree, neighbors[..j], sorted, inDegree', queue')
    {
      inDegree', queue' := ReleaseEdge(inDegree, neighbors, j, sorted, inDegree', queue');
      j := j + 1;
    }
    assert neighbors[..j] == neighbors;
  }

  lemma ReleasedStart(inDegree: map<string, int>, neighbors: seq<string>, sorted: seq<string>, queue: seq<string>)
    requires NoDup(queue) && forall x :: x in queue ==> x !in sorted && x in inDegree
    requires forall x :: x in inDegree ==> (inDegree[x] == 0 <==> x in sorted || x in queue)
    ensures Released(inDegree, neighbors[..0], sorted, inDegree, queue)
  {
    assert neighbors[..0] == [];
  }

  /** The loop body of the release: one edge to `neighbors[j]`. */
  method ReleaseEdge(inDegree: map<string, int>, neighbors: seq<string>, j: nat, ghost sorted: seq<string>, d: map<string, int>, q: seq<string>)
    returns (d': map<string, int>, q': seq<string>)
    requires j < |neighbors| && neighbors[j] in inDegree
    requires inDegree[neighbors[j]] >= multiset(neighbors)[neighbors[j]]
    requires Released(inDegree, neighbors[..j], sorted, d, q)
    ensures Released(inDegree, neighbors[..j + 1], sorted, d', q')
  {
    var neighbor := neighbors[j];
    ReleasedStep(inDegree, neighbors, j, sorted, d, q);
    d' := d[neighbor := d[neighbor] - 1];
    q' := if d'[neighbor] == 0 then q + [neighbor] else q;
  }

  /**
   * The state of Kahn's algorithm between two polls: the listed buildings
   * and the queue are duplicate-free, disjoint and present; each count is
   * the number of present source entries not yet listed; exactly the
   * listed and queued buildings have count 0; and sources come first.
   */
  ghost predicate KahnState(srcs: map<string, seq<string>>, sorted: seq<string>, queue: seq<string>, listed: set<string>, inDegree: map<string, int>)
  {
    NoDup(sorted) && NoDup(queue) &&
    (forall x :: x in sorted ==> x in srcs) &&
    (forall x :: x in queue ==> x in srcs && x !in sorted) &&
    (forall x :: x in listed <==> x in sorted) &&
    inDegree.Keys == srcs.Keys &&
    (forall x :: x in srcs ==> inDegree[x] == CountUnlisted(srcs[x], srcs.Keys, listed)) &&
    (forall x :: x in srcs ==> (inDegree[x] == 0 <==> x in sorted || x in queue)) &&
    SourcesFirst(sorted, srcs)
  }

  /** One round of Kahn's algorithm: poll the queue, list that building, release its edges. */
  method ListNext(srcs: map<string, seq<string>>, graph: map<string, seq<string>>,
                  sorted: seq<string>, queue: seq<string>, ghost listed: set<string>, inDegree: map<string, int>)
    returns (sorted': seq<string>, queue': seq<string>, ghost listed': set<string>, inDegree': map<string, int>)
    requires EdgesOf(graph, srcs, srcs.Keys)
    requires KahnState(srcs, sorted, queue, listed, inDegree) && queue != []
    ensures KahnState(srcs, sorted', queue', listed', inDegree')
    ensures sorted' == sorted + [queue[0]] && |sorted'| <= |srcs|
  {
    var keys := srcs.Keys;
    NoDupAppend(sorted, queue);
    DistinctBound(sorted + queue, keys);
    var current := queue[0];
    CountUnlistedZero(srcs[current], keys, listed);
    SourcesFirstAppend(sorted, current, srcs);
    sorted' := sorted + [current];
    listed' := listed + {current};
    var neighbors := graph[current];
    ListingLowersDegrees(srcs, graph, listed, current);
    inDegree', queue' := Release(inDegree, queue[1..], neighbors, sorted');
    assert NoDup(sorted') by {
      NoDupAppend(sorted, [current]);
    }
  }

  /**
   * `getTopOrder`. The result lists each building at most once and only
   * present ones; every listed building comes after all of its present
   * sources; and every building left out has a present source that is left
   * out too, which is how a building on or downstream of a dependency cycle
   * is omitted (see the lemmas below).
   */
  method TopOrder(srcs: map<string, seq<string>>) returns (sorted: seq<string>)
    ensures NoDup(sorted)
    ensures forall x :: x in sorted ==> x in srcs
    ensures SourcesFirst(sorted, srcs)
    ensures BlockedUnlisted(sorted, srcs)
  {
    var graph, inDegree := BuildGraph(srcs);
    var queue := SeedQueue(inDegree);
    sorted := [];
    ghost var listed: set<string> := {};
    while queue != []
      invariant KahnState(srcs, sorted, queue, listed, inDegree)
      invariant |sorted| <= |srcs|
      decreases |srcs| - |sorted|
    {
      sorted, queue, listed, inDegree := ListNext(srcs, graph, sorted, queue, listed, inDegree);
    }
    StuckMeansBlocked(srcs, sorted, listed, inDegree);
  }

  /** When the queue runs dry, a building with a non-zero count waits on an unlisted present source. */
  lemma StuckMeansBlocked(srcs: map<string, seq<string>>, sorted: seq<string>, listed: set<string>, inDegree: map<string, int>)
    requires forall x :: x in listed <==> x in sorted
    requires inDegree.Keys == srcs.Keys
    requires forall x :: x in srcs ==> inDegree[x] == CountUnlisted(srcs[x], srcs.Keys, listed)
    requires forall x :: x in srcs ==> (inDegree[x] == 0 <==> x in sorted)
    ensures BlockedUnlisted(sorted, srcs)
  {
    forall b | b in srcs && b !in sorted
      ensures WaitsOnUnlisted(sorted, srcs, b)
    {
      CountUnlistedZero(srcs[b], srcs.Keys, listed);
    }
  }

  /** A flow of goods: each building of the chain is a present source of the next one. */
  ghost predicate IsChain(srcs: map<string, seq<string>>, chain: seq<string>)
  {
    |chain| >= 1 &&
    forall i, j :: 0 <= i && j == i + 1 && j < |chain| ==> Feeds(srcs, chain[i], chain[j])
  }

  /** `s` is a present source of the present building `b`. */
  ghost predicate Feeds(srcs: map<string, seq<string>>, s: string, b: string)
  {
    b in srcs && s in srcs && s in srcs[b]
  }

  /** The position of the first occurrence of `x`. */
  ghost function IndexOf(s: seq<string>, x: string): (i: nat)
    requires x in s
    ensures i < |s| && s[i] == x && x !in s[..i]
    ensures forall k :: 0 <= k < |s| && s[k] == x ==> i <= k
  {
    if s[0] == x then 0 else
      assert s[1..][..IndexOf(s[1..], x)] == s[..IndexOf(s[1..], x) + 1][1..];
      1 + IndexOf(s[1..], x)
  }

  /**
   * Along a chain ending at a listed building, every earlier building is
   * listed too, each strictly before the next.
   */
  lemma {:induction false} ChainListedBefore(sorted: seq<string>, srcs: map<string, seq<string>>, chain: seq<string>)
    requires SourcesFirst(sorted, srcs) && IsChain(srcs, chain)
    requires chain[|chain| - 1] in sorted
    ensures chain[0] in sorted
    ensures IndexOf(sorted, chain[0]) + |chain| - 1 <= IndexOf(sorted, chain[|chain| - 1])
    decreases |chain|
  {
    if |chain| > 1 {
      var n := |chain|;
      var p := IndexOf(sorted, chain[n - 1]);
      var s := chain[n - 2];
      assert Feeds(srcs, chain[n - 2], chain[n - 1]);
      assert sorted[p] == chain[n - 1];
      assert s in sorted[..p];
      var q := IndexOf(sorted[..p], s);
      assert sorted[..p][..q] == sorted[..q];
      var prefix := chain[..n - 1];
      assert IsChain(srcs, prefix);
      ChainListedBefore(sorted, srcs, prefix);
    }
  }

  /**
   * A building on a dependency cycle, or reachable from one, is never listed:
   * `cycle` returns to where it started, and `path` leads from one of its
   * buildings to `path`'s last building.
   */
  lemma CycleAndDownstreamOmitted(sorted: seq<string>, srcs: map<string, seq<string>>, cycle: seq<string>, path: seq<string>)
    requires SourcesFirst(sorted, srcs)
    requires IsChain(srcs, cycle) && |cycle| >= 2 && cycle[0] == cycle[|cycle| - 1]
    requires IsChain(srcs, path) && path[0] in cycle
    ensures path[|path| - 1] !in sorted
    ensures forall x :: x in cycle ==> x !in sorted
  {
    forall x | x in cycle
      ensures x !in sorted
    {
      if x in sorted {
        var k :| 0 <= k < |cycle| && cycle[k] == x;
        var upTo := cycle[..k + 1];
        assert IsChain(srcs, upTo);
        ChainListedBefore(sorted, srcs, upTo);
        ChainListedBefore(sorted, srcs, cycle);
      }
    }
    if path[|path| - 1] in sorted {
      ChainListedBefore(sorted, srcs, path);
    }
  }

  /**
   * Without a cycle every building is listed: given a rank that strictly
   * grows from each present source to the building it feeds, the order
   * leaves nothing out.
   */
  lemma AcyclicAllListed(sorted: seq<string>, srcs: map<string, seq<string>>, rank: map<string, nat>)
    requires BlockedUnlisted(sorted, srcs)
    requires forall b :: b in srcs ==> b in rank
    requires forall b, s :: b in srcs && s in srcs[b] && s in srcs ==> rank[s] < rank[b]
    ensures forall b :: b in srcs ==> b in sorted
  {
    forall b | b in srcs
      ensures b in sorted
    {
      RankBelowListed(sorted, srcs, rank, rank[b] + 1);
    }
  }

  lemma {:induction false} RankBelowListed(sorted: seq<string>, srcs: map<string, seq<string>>, rank: map<string, nat>, n: nat)
    requires BlockedUnlisted(sorted, srcs)
    requires forall b :: b in srcs ==> b in rank
    requires forall b, s :: b in srcs && s in srcs[b] && s in srcs ==> rank[s] < rank[b]
    ensures forall b :: b in srcs && rank[b] < n ==> b in sorted
  {
    if n > 0 {
      RankBelowListed(sorted, srcs, rank, n - 1);
    }
  }
}
