/** The plan runner: the recursive dependency check, the greedy conflict-free waves and the loop that runs them.
    Packet numbers are integers in the order of the normalized ids they stand for. */
module Plan {
  import opened Sequences

  type Packet = int

  type Graph = map<Packet, seq<Packet>>

  // ---- Graphs ----

  predicate Edge(g: Graph, a: Packet, b: Packet) { a in g && b in g[a] }

  predicate Walk(g: Graph, p: seq<Packet>) {
    forall i :: 0 <= i < |p| - 1 ==> Edge(g, p[i], p[i + 1])
  }

  predicate Cycle(g: Graph, p: seq<Packet>) {
    |p| >= 2 && p[0] == p[|p| - 1] && Walk(g, p)
  }

  ghost predicate DependenciesKnown(g: Graph) {
    forall a, b :: Edge(g, a, b) ==> b in g
  }

  ghost predicate Acyclic(g: Graph) {
    forall p :: !Cycle(g, p)
  }

  /** Each packet after all of its dependencies. */
  predicate Ordered(g: Graph, order: seq<Packet>) {
    && (forall i :: 0 <= i < |order| ==> order[i] in g)
    && (forall i, b :: 0 <= i < |order| && b in g[order[i]] ==> b in order[..i])
  }

  datatype GraphError = CyclicAt(packet: Packet) | UnknownDependency(packet: Packet, dependency: Packet)

  ghost predicate Sound(g: Graph) { DependenciesKnown(g) && Acyclic(g) }

  /** What makes a graph unsound. */
  datatype Flaw = Missing(a: Packet, b: Packet) | Loop(walk: seq<Packet>)

  predicate Evident(g: Graph, flaw: Flaw) {
    match flaw
    case Missing(a, b) => Edge(g, a, b) && b !in g
    case Loop(walk) => Cycle(g, walk)
  }

  /** What the two sets mean: `visiting` is the stack of calls, a walk in the graph. */
  ghost predicate SetsOk(g: Graph, visiting: set<Packet>, visited: set<Packet>, stack: seq<Packet>) {
    && (forall x :: x in visiting <==> x in stack) && (forall x :: x in visiting || x in visited ==> x in g)
    && visited !! visiting && Walk(g, stack)
  }

  /** Without errors so far, `order` lists what was visited, dependencies first. */
  ghost predicate Listed(g: Graph, visited: set<Packet>, order: seq<Packet>) {
    Ordered(g, order) && forall x :: x in order <==> x in visited
  }

  /** The recursion of `visit`, with its two sets. */
  class Checker {
    const g: Graph
    var visiting: set<Packet>
    var visited: set<Packet>
    var errors: seq<GraphError>
    ghost var stack: seq<Packet>
    ghost var order: seq<Packet>
    ghost var flaw: Flaw

    ghost predicate Valid()
      reads this
    {
      && SetsOk(g, visiting, visited, stack)
      && if errors == [] then Listed(g, visited, order) else Evident(g, flaw)
    }

    constructor (g: Graph)
      ensures this.g == g && Valid() && visiting == {} && stack == [] && errors == [] && visited == {}
    {
      this.g := g;
      visiting, visited, errors, stack, order, flaw := {}, {}, [], [], [], Loop([]);
    }

    method Visit(number: Packet)
      requires Valid() && number in g && (stack == [] || Edge(g, stack[|stack| - 1], number))
      modifies this
      ensures Valid() && visiting == old(visiting) && stack == old(stack) && old(visited) <= visited
      ensures (old(errors) != [] ==> errors != []) && (errors == [] ==> number in visited)
      decreases |g.Keys - visiting|, 0
    {
      if number in visiting {
        flaw := CycleOnStack(g, stack, number);
        errors := errors + [CyclicAt(number)];
        return;
      }
      if number in visited { return; }
      Push(number);
      FollowAll(number);
      Pop(number);
      assert old(visiting) + {number} - {number} == old(visiting);
    }

    method Push(number: Packet)
      requires Valid() && number in g && (stack == [] || Edge(g, stack[|stack| - 1], number))
      requires number !in visiting && number !in visited
      modifies this`visiting, this`stack
      ensures Valid() && visiting == old(visiting) + {number} && stack == old(stack) + [number]
      ensures |g.Keys - visiting| < |g.Keys - old(visiting)|
    {
      Enter(g, visiting, visited, stack, number);
      visiting := visiting + {number};
      stack := stack + [number];
    }

    method Pop(number: Packet)
      requires Valid() && number in visiting && stack != [] && stack[|stack| - 1] == number && number !in stack[..|stack| - 1]
      requires errors == [] ==> forall b :: b in g[number] ==> b in visited
      modifies this`visiting, this`stack, this`visited, this`order
      ensures Valid() && visiting == old(visiting) - {number} && stack == old(stack[..|stack| - 1])
      ensures visited == old(visited) + {number}
    {
      assert stack == stack[..|stack| - 1] + [number];
      Leave(g, visiting, visited, stack[..|stack| - 1], number);
      if errors == [] { AppendOrdered(g, visited, order, number); }
      visiting := visiting - {number};
      visited := visited + {number};
      stack := stack[..|stack| - 1];
      order := order + [number];
    }

    method FollowAll(number: Packet)
      requires Valid() && number in g && stack != [] && stack[|stack| - 1] == number
      modifies this
      ensures Valid() && visiting == old(visiting) && stack == old(stack) && old(visited) <= visited
      ensures (old(errors) != [] ==> errors != []) && (errors == [] ==> forall b :: b in g[number] ==> b in visited)
      decreases |g.Keys - visiting|, 2
    {
      var i := 0;
      while i < |g[number]|
        invariant 0 <= i <= |g[number]|
        invariant Valid() && visiting == old(visiting) && stack == old(stack)
        invariant old(visited) <= visited && (old(errors) != [] ==> errors != [])
        invariant errors == [] ==> forall k :: 0 <= k < i ==> g[number][k] in visited
      {
        Follow(number, g[number][i]);
        i := i + 1;
      }
    }

    method Follow(number: Packet, dependency: Packet)
      requires Valid() && stack != [] && stack[|stack| - 1] == number && Edge(g, number, dependency)
      modifies this
      ensures Valid() && visiting == old(visiting) && stack == old(stack) && old(visited) <= visited
      ensures (old(errors) != [] ==> errors != []) && (errors == [] ==> dependency in visited)
      decreases |g.Keys - visiting|, 1
    {
      if dependency !in g {
        flaw := Missing(number, dependency);
        errors := errors + [UnknownDependency(number, dependency)];
      } else {
        Visit(dependency);
      }
    }
  }

  lemma Enter(g: Graph, visiting: set<Packet>, visited: set<Packet>, stack: seq<Packet>, n: Packet)
    requires SetsOk(g, visiting, visited, stack) && n in g && n !in visiting && n !in visited
    requires stack == [] || Edge(g, stack[|stack| - 1], n)
    ensures SetsOk(g, visiting + {n}, visited, stack + [n])
    ensures |g.Keys - (visiting + {n})| < |g.Keys - visiting|
  {
    assert n in g.Keys - visiting;
    SmallerSet(g.Keys - (visiting + {n}), g.Keys - visiting);
  }

  lemma Leave(g: Graph, visiting: set<Packet>, visited: set<Packet>, stack: seq<Packet>, n: Packet)
    requires SetsOk(g, visiting, visited, stack + [n]) && n in visiting && n !in stack
    ensures SetsOk(g, visiting - {n}, visited + {n}, stack)
  {
    var longer := stack + [n];
    forall x ensures x in visiting - {n} <==> x in stack { assert x in longer <==> x in stack || x == n; }
    forall i | 0 <= i < |stack| - 1 ensures Edge(g, stack[i], stack[i + 1]) { assert Edge(g, longer[i], longer[i + 1]); }
  }

  lemma SmallerSet(a: set<Packet>, b: set<Packet>)
    requires a < b
    ensures |a| < |b|
  {
    assert b == a + (b - a) && b - a != {};
  }

  lemma CycleOnStack(g: Graph, stack: seq<Packet>, number: Packet) returns (flaw: Flaw)
    requires Walk(g, stack) && number in stack && Edge(g, stack[|stack| - 1], number)
    ensures Evident(g, flaw)
  {
    var i :| 0 <= i < |stack| && stack[i] == number;
    flaw := Loop(stack[i..] + [number]);
  }

  lemma AppendOrdered(g: Graph, visited: set<Packet>, order: seq<Packet>, n: Packet)
    requires Listed(g, visited, order) && n in g && forall b :: b in g[n] ==> b in visited
    ensures Listed(g, visited + {n}, order + [n])
  {
    var longer := order + [n];
    forall i, b | 0 <= i < |longer| && b in g[longer[i]] ensures b in longer[..i] {
      if i < |order| { assert longer[..i] == order[..i]; } else { assert longer[..i] == order; }
    }
  }

  /** The graph check over every packet: no error exactly when every dependency is known and the graph is acyclic. */
  method CheckGraph(g: Graph, numbers: seq<Packet>) returns (errors: seq<GraphError>, ghost order: seq<Packet>)
    requires forall x :: x in numbers <==> x in g
    ensures errors == [] <==> DependenciesKnown(g) && Acyclic(g)
    ensures errors == [] ==> Ordered(g, order) && forall x :: x in order <==> x in g
  {
    var checker := new Checker(g);
    var i := 0;
    while i < |numbers|
      invariant 0 <= i <= |numbers| && checker.Valid() && checker.stack == [] && checker.g == g
      invariant checker.errors == [] ==> forall x :: x in numbers[..i] ==> x in checker.visited
    {
      assert numbers[..i + 1] == numbers[..i] + [numbers[i]];
      checker.Visit(numbers[i]);
      i := i + 1;
    }
    errors, order := checker.errors, checker.order;
    if errors == [] {
      assert numbers[..i] == numbers;
      OrderedIsSound(g, order);
    }
  }

  lemma OrderedIsSound(g: Graph, order: seq<Packet>)
    requires Ordered(g, order) && forall x :: x in order <==> x in g
    ensures Sound(g)
  {
    forall a, b | Edge(g, a, b) ensures b in g { EdgeDescends(g, order, a, b); }
    forall p ensures !Cycle(g, p) { OrderedHasNoCycle(g, order, p); }
  }

  /** First position of a packet in an order. */
  function Position(order: seq<Packet>, n: Packet): (i: nat)
    requires n in order
    ensures i < |order| && order[i] == n && forall k :: 0 <= k < i ==> order[k] != n
  {
    if order[0] == n then 0 else 1 + Position(order[1..], n)
  }

  lemma EdgeDescends(g: Graph, order: seq<Packet>, a: Packet, b: Packet)
    requires Ordered(g, order) && a in order && Edge(g, a, b)
    ensures b in order && Position(order, b) < Position(order, a)
  {
    var i := Position(order, a);
    var k :| 0 <= k < i && order[..i][k] == b;
    assert order[k] == b;
  }

  lemma {:induction false} WalkDescends(g: Graph, order: seq<Packet>, p: seq<Packet>, k: nat)
    requires Ordered(g, order) && Walk(g, p) && k < |p| && p[0] in order
    ensures p[k] in order && Position(order, p[k]) + k <= Position(order, p[0])
  {
    if k > 0 {
      WalkDescends(g, order, p, k - 1);
      assert Edge(g, p[k - 1], p[k]);
      EdgeDescends(g, order, p[k - 1], p[k]);
    }
  }

  lemma OrderedHasNoCycle(g: Graph, order: seq<Packet>, p: seq<Packet>)
    requires Ordered(g, order) && (forall x :: x in order <==> x in g)
    ensures !Cycle(g, p)
  {
    if Cycle(g, p) {
      assert Edge(g, p[0], p[1]);
      WalkDescends(g, order, p, |p| - 1);
    }
  }

  // ---- Waves ----

  function Max(a: int, b: int): int { if a < b then b else a }

  predicate Claimed(ns: seq<Packet>, paths: map<Packet, set<string>>) {
    forall i :: 0 <= i < |ns| ==> ns[i] in paths
  }

  /** select_wave from position i on, given what the wave already holds. */
  function Greedy(runnable: seq<Packet>, paths: map<Packet, set<string>>, limit: int, wave: seq<Packet>, used: set<string>): seq<Packet>
    requires Claimed(runnable, paths)
    decreases |runnable|
  {
    if runnable == [] || |wave| >= limit then wave
    else if paths[runnable[0]] * used != {} then Greedy(runnable[1..], paths, limit, wave, used)
    else Greedy(runnable[1..], paths, limit, wave + [runnable[0]], used + paths[runnable[0]])
  }

  /** No two packets of a wave claim a common path. */
  predicate ConflictFree(wave: seq<Packet>, paths: map<Packet, set<string>>)
    requires Claimed(wave, paths)
  {
    forall i, j :: 0 <= i < j < |wave| ==> paths[wave[i]] !! paths[wave[j]]
  }

  /** Every path claimed by the wave is marked used. */
  predicate Marked(wave: seq<Packet>, paths: map<Packet, set<string>>, used: set<string>)
    requires Claimed(wave, paths)
  {
    forall i :: 0 <= i < |wave| ==> paths[wave[i]] <= used
  }

  lemma StillDisjoint(a: set<string>, b: set<string>, used: set<string>)
    requires a <= used && b * used == {}
    ensures a !! b
  {
    forall q | q in a ensures q !in b { assert q in b ==> q in b * used; }
  }

  /** What the greedy choice adds: packets of the list in order, conflict-free, within the limit. */
  lemma {:induction false} GreedyIsWave(runnable: seq<Packet>, paths: map<Packet, set<string>>, limit: int, wave: seq<Packet>, used: set<string>)
    requires Claimed(runnable, paths) && Claimed(wave, paths)
    requires ConflictFree(wave, paths) && Marked(wave, paths, used) && |wave| <= limit
    ensures var w := Greedy(runnable, paths, limit, wave, used);
            && wave <= w && |w| <= limit && Subsequence(w, wave + runnable)
            && Claimed(w, paths) && ConflictFree(w, paths)
    decreases |runnable|
  {
    if runnable != [] && |wave| < limit {
      var n, rest := runnable[0], runnable[1..];
      assert wave + runnable == wave + [n] + rest;
      if paths[n] * used != {} {
        GreedyIsWave(rest, paths, limit, wave, used);
        SubsequenceWithout(wave, n, rest);
        SubsequenceTrans(Greedy(rest, paths, limit, wave, used), wave + rest, wave + runnable);
      } else {
        forall i | 0 <= i < |wave| ensures paths[wave[i]] !! paths[n] { StillDisjoint(paths[wave[i]], paths[n], used); }
        GreedyIsWave(rest, paths, limit, wave + [n], used + paths[n]);
      }
    } else {
      SubsequenceSelf(wave);
      SubsequenceExtend(wave, wave, runnable);
    }
  }

  /** A runnable packet is deferred only for a packet chosen before it, or because the wave is full. */
  lemma {:induction false} GreedyIsMaximal(runnable: seq<Packet>, paths: map<Packet, set<string>>, limit: int, wave: seq<Packet>, used: set<string>, n: Packet)
    requires Claimed(runnable, paths) && Claimed(wave, paths) && n in runnable
    requires forall q :: q in used ==> exists i :: 0 <= i < |wave| && q in paths[wave[i]]
    requires ConflictFree(wave, paths) && Marked(wave, paths, used) && |wave| <= limit
    ensures var w := Greedy(runnable, paths, limit, wave, used);
            && Claimed(w, paths)
            && (n in w || |w| >= limit || exists i :: 0 <= i < |w| && paths[w[i]] * paths[n] != {})
    decreases |runnable|
  {
    GreedyIsWave(runnable, paths, limit, wave, used);
    if |wave| < limit {
      var first, rest := runnable[0], runnable[1..];
      var w := Greedy(runnable, paths, limit, wave, used);
      if paths[first] * used != {} {
        if n == first {
          var q :| q in paths[n] * used;
          var i :| 0 <= i < |wave| && q in paths[wave[i]];
          assert w[i] == wave[i] && q in paths[w[i]] * paths[n];
        } else {
          GreedyIsMaximal(rest, paths, limit, wave, used, n);
        }
      } else {
        var longer := wave + [first];
        forall i | 0 <= i < |wave| ensures paths[wave[i]] !! paths[first] { StillDisjoint(paths[wave[i]], paths[first], used); }
        GreedyIsWave(rest, paths, limit, longer, used + paths[first]);
        if n == first {
          assert longer[|wave|] == n && w[|wave|] == n;
        } else {
          forall q | q in used + paths[first] ensures exists i :: 0 <= i < |longer| && q in paths[longer[i]] {
            if q in used {
              var i :| 0 <= i < |wave| && q in paths[wave[i]];
              assert longer[i] == wave[i];
            } else {
              assert longer[|wave|] == first;
            }
          }
          GreedyIsMaximal(rest, paths, limit, longer, used + paths[first], n);
        }
      }
    }
  }

  method SelectWave(runnable: seq<Packet>, paths: map<Packet, set<string>>, jobs: int) returns (wave: seq<Packet>)
    requires Claimed(runnable, paths)
    ensures wave == Greedy(runnable, paths, Max(1, jobs), [], {})
    ensures runnable != [] ==> wave != [] && wave[0] == runnable[0]
    ensures Subsequence(wave, runnable) && |wave| <= Max(1, jobs)
    ensures Claimed(wave, paths) && ConflictFree(wave, paths)
  {
    wave := [];
    var used: set<string> := {};
    var i := 0;
    while i < |runnable|
      invariant 0 <= i <= |runnable|
      invariant Greedy(runnable[i..], paths, Max(1, jobs), wave, used) == Greedy(runnable, paths, Max(1, jobs), [], {})
      invariant i > 0 ==> wave != [] && wave[0] == runnable[0]
      invariant i == 0 ==> wave == [] && used == {}
    {
      if |wave| >= Max(1, jobs) { break; }
      var claimed := paths[runnable[i]];
      if claimed * used != {} {
        i := i + 1;
        continue;
      }
      wave := wave + [runnable[i]];
      used := used + claimed;
      i := i + 1;
    }
    // The first runnable packet meets an empty wave, so the fallback after the loop is never taken.
    assert wave == [] ==> runnable == [];
    GreedyIsWave(runnable, paths, Max(1, jobs), [], {});
    assert [] + runnable == runnable;
  }

  // ---- The run ----

  datatype Record = Cached(packet: Packet) | Ran(packet: Packet, pass: bool) | Blocked(packets: set<Packet>)

  datatype Status = Pass | Fail | Rejected

  lemma HasMember(s: set<Packet>)
    requires s != {}
    ensures exists x :: x in s
  {
    assert (forall x :: x !in s) ==> s == {};
  }

  lemma {:induction false} MinExists(s: set<Packet>) returns (m: Packet)
    requires s != {}
    ensures m in s && forall x :: x in s ==> m <= x
    decreases |s|
  {
    HasMember(s);
    var x :| x in s;
    m := x;
    if exists y :: y in s && y != x {
      var y :| y in s && y != x;
      assert y in s - {x};
      var rest := MinExists(s - {x});
      m := if x < rest then x else rest;
      forall z | z in s ensures m <= z { if z != x { assert z in s - {x}; } }
    }
  }

  /** sorted(s). */
  method Sorted(s: set<Packet>) returns (r: seq<Packet>)
    ensures forall x :: x in r <==> x in s
    ensures forall i, j :: 0 <= i < j < |r| ==> r[i] < r[j]
  {
    r := [];
    var rest := s;
    while rest != {}
      invariant rest <= s && (forall x :: x in r <==> x in s - rest)
      invariant forall i, j :: 0 <= i < j < |r| ==> r[i] < r[j]
      invariant forall i, x :: 0 <= i < |r| && x in rest ==> r[i] < x
      decreases |rest|
    {
      ghost var least := MinExists(rest);
      var m :| m in rest && forall x :: x in rest ==> m <= x;
      r := r + [m];
      rest := rest - {m};
    }
  }

  predicate Ready(g: Graph, completed: set<Packet>, n: Packet) {
    n in g && forall k :: 0 <= k < |g[n]| ==> g[n][k] in completed
  }

  /** The runnable packets, in sorted order. */
  method Runnable(g: Graph, remaining: set<Packet>, completed: set<Packet>) returns (r: seq<Packet>)
    requires remaining <= g.Keys
    ensures forall n :: n in r <==> n in remaining && Ready(g, completed, n)
    ensures forall i, j :: 0 <= i < j < |r| ==> r[i] < r[j]
  {
    var all := Sorted(remaining);
    r := [];
    var i := 0;
    while i < |all|
      invariant 0 <= i <= |all|
      invariant forall n :: n in r <==> n in all[..i] && Ready(g, completed, n)
      invariant forall a, b :: 0 <= a < b < |r| ==> r[a] < r[b]
      invariant forall a, b :: 0 <= a < |r| && i <= b < |all| ==> r[a] < all[b]
    {
      assert all[..i + 1] == all[..i] + [all[i]];
      assert all[i] in all;
      if Ready(g, completed, all[i]) { r := r + [all[i]]; }
      i := i + 1;
    }
    assert all[..i] == all;
  }

  /** Each packet ran after all of its dependencies were cached or had passed. */
  predicate DependenciesFirst(g: Graph, cached: set<Packet>, passes: Packet -> bool, ran: seq<Packet>) {
    forall i :: 0 <= i < |ran| ==> ReadyAt(g, cached, passes, ran, i)
  }

  predicate ReadyAt(g: Graph, cached: set<Packet>, passes: Packet -> bool, ran: seq<Packet>, i: nat)
    requires i < |ran|
  {
    ran[i] in g && forall k :: 0 <= k < |g[ran[i]]| ==> Settled(cached, passes, ran[..i], g[ran[i]][k])
  }

  predicate Settled(cached: set<Packet>, passes: Packet -> bool, ran: seq<Packet>, n: Packet) {
    n in cached || (n in ran && passes(n))
  }

  /** The completed set, the packets still to run and the packets that ran, at any point of the loop. */
  ghost predicate Progress(g: Graph, cached: set<Packet>, passes: Packet -> bool, remaining: set<Packet>, completed: set<Packet>, ran: seq<Packet>) {
    && remaining <= g.Keys - cached && NoDuplicates(ran)
    && (forall n :: n in ran <==> n in g && n !in cached && n !in remaining)
    && (forall n :: n in completed <==> Settled(cached, passes, ran, n))
    && DependenciesFirst(g, cached, passes, ran)
  }

  lemma RunOne(g: Graph, cached: set<Packet>, passes: Packet -> bool, ran: seq<Packet>, n: Packet)
    requires DependenciesFirst(g, cached, passes, ran) && n in g && n !in ran && NoDuplicates(ran)
    requires forall k :: 0 <= k < |g[n]| ==> Settled(cached, passes, ran, g[n][k])
    ensures DependenciesFirst(g, cached, passes, ran + [n]) && NoDuplicates(ran + [n])
    ensures forall x :: Settled(cached, passes, ran + [n], x) <==> Settled(cached, passes, ran, x) || (x == n && passes(n))
  {
    var longer := ran + [n];
    forall i | 0 <= i < |longer| ensures ReadyAt(g, cached, passes, longer, i) {
      if i < |ran| {
        assert ReadyAt(g, cached, passes, ran, i);
        assert longer[..i] == ran[..i];
      } else {
        assert longer[..i] == ran;
      }
    }
  }

  /** The packets of the waves so far. */
  predicate InWaves(waves: seq<seq<Packet>>, n: Packet) {
    exists i :: 0 <= i < |waves| && n in waves[i]
  }

  /** The run so far is the waves one after the other, each in the order in which its packets completed. */
  ghost predicate Blocks(waves: seq<seq<Packet>>, ran: seq<Packet>)
    decreases |waves|
  {
    if waves == [] then ran == []
    else
      var last := waves[|waves| - 1];
      |last| <= |ran| && multiset(ran[|ran| - |last|..]) == multiset(last) && Blocks(waves[..|waves| - 1], ran[..|ran| - |last|])
  }

  /** When a wave starts, every dependency of its packets is cached, or has run and passed in an earlier wave. */
  predicate WaveReady(g: Graph, cached: set<Packet>, passes: Packet -> bool, earlier: seq<seq<Packet>>, wave: seq<Packet>) {
    forall n :: n in wave ==> n in g && forall k :: 0 <= k < |g[n]| ==> g[n][k] in cached || (passes(g[n][k]) && InWaves(earlier, g[n][k]))
  }

  predicate WavesReady(g: Graph, cached: set<Packet>, passes: Packet -> bool, waves: seq<seq<Packet>>) {
    forall i :: 0 <= i < |waves| ==> WaveReady(g, cached, passes, waves[..i], waves[i])
  }

  lemma AddOk(waves: seq<seq<Packet>>, wave: seq<Packet>, paths: map<Packet, set<string>>, jobs: int)
    requires WavesOk(waves, paths, jobs) && WavesOk([wave], paths, jobs)
    ensures WavesOk(waves + [wave], paths, jobs)
  {
    assert [wave][0] == wave;
  }

  lemma AddBlock(waves: seq<seq<Packet>>, ran: seq<Packet>, wave: seq<Packet>, log: seq<Packet>)
    requires Blocks(waves, ran) && ran <= log && multiset(log[|ran|..]) == multiset(wave)
    ensures Blocks(waves + [wave], log)
  {
    SameSize(wave, log[|ran|..]);
    var longer := waves + [wave];
    assert longer[..|waves|] == waves && log[..|ran|] == ran;
  }

  lemma SameSize(a: seq<Packet>, b: seq<Packet>)
    requires multiset(a) == multiset(b)
    ensures |a| == |b| && forall n :: n in a <==> n in b
  {
    assert |multiset(a)| == |a| && |multiset(b)| == |b|;
    forall n ensures n in a <==> n in b { assert n in multiset(a) <==> n in multiset(b); }
  }

  /** At most one wave holds the packet, and at most once. */
  predicate Once(waves: seq<seq<Packet>>, n: Packet) {
    && (forall i, j :: 0 <= i < j < |waves| ==> !(n in waves[i] && n in waves[j]))
    && (forall i :: 0 <= i < |waves| ==> multiset(waves[i])[n] <= 1)
  }

  lemma OnceMore(earlier: seq<seq<Packet>>, last: seq<Packet>, n: Packet)
    requires Once(earlier, n) && multiset(last)[n] <= 1 && !(n in last && InWaves(earlier, n))
    ensures Once(earlier + [last], n)
  {
  }

  lemma InWavesMore(earlier: seq<seq<Packet>>, last: seq<Packet>, n: Packet)
    ensures InWaves(earlier + [last], n) <==> InWaves(earlier, n) || n in last
  {
    var waves := earlier + [last];
    if n in last { assert n in waves[|earlier|]; }
    if InWaves(earlier, n) {
      var i :| 0 <= i < |earlier| && n in earlier[i];
      assert n in waves[i];
    }
  }

  lemma SplitDistinct(a: seq<Packet>, b: seq<Packet>)
    requires NoDuplicates(a + b)
    ensures NoDuplicates(a) && NoDuplicates(b) && forall n :: !(n in a && n in b)
  {
    assert forall i :: 0 <= i < |a| ==> (a + b)[i] == a[i];
    assert forall i :: 0 <= i < |b| ==> (a + b)[|a| + i] == b[i];
  }

  /** So a packet ran exactly if it is in a wave, and then in exactly one, once. */
  lemma {:induction false} OneWaveEach(waves: seq<seq<Packet>>, ran: seq<Packet>, n: Packet)
    requires Blocks(waves, ran) && NoDuplicates(ran)
    ensures (n in ran <==> InWaves(waves, n)) && Once(waves, n)
    decreases |waves|
  {
    if waves != [] {
      var earlier, last := waves[..|waves| - 1], waves[|waves| - 1];
      var before, block := ran[..|ran| - |last|], ran[|ran| - |last|..];
      assert ran == before + block && waves == earlier + [last];
      SplitDistinct(before, block);
      OneWaveEach(earlier, before, n);
      SameSize(last, block);
      DistinctIsSet(block);
      InWavesMore(earlier, last, n);
      OnceMore(earlier, last, n);
    }
  }

  /** A wave of ready packets may follow the waves so far. */
  lemma AddReady(g: Graph, cached: set<Packet>, passes: Packet -> bool, waves: seq<seq<Packet>>, wave: seq<Packet>,
                 completed: set<Packet>, ran: seq<Packet>)
    requires WavesReady(g, cached, passes, waves) && Blocks(waves, ran) && NoDuplicates(ran)
    requires forall n :: n in wave ==> Ready(g, completed, n)
    requires forall n :: n in completed <==> Settled(cached, passes, ran, n)
    ensures WavesReady(g, cached, passes, waves + [wave])
  {
    var longer := waves + [wave];
    forall n, k | n in wave && 0 <= k < |g[n]|
      ensures g[n][k] in cached || (passes(g[n][k]) && InWaves(waves, g[n][k]))
    {
      assert Ready(g, completed, n);
      OneWaveEach(waves, ran, g[n][k]);
      assert Settled(cached, passes, ran, g[n][k]);
    }
    forall i | 0 <= i < |longer| ensures WaveReady(g, cached, passes, longer[..i], longer[i]) {
      if i < |waves| { assert longer[..i] == waves[..i]; } else { assert longer[..i] == waves; }
    }
  }

  /** One wave: its futures complete in any order. */
  method RunWave(g: Graph, cached: set<Packet>, passes: Packet -> bool, wave: seq<Packet>, remaining: set<Packet>, completed: set<Packet>, ran: seq<Packet>)
    returns (left: set<Packet>, done: set<Packet>, log: seq<Packet>)
    requires Progress(g, cached, passes, remaining, completed, ran)
    requires NoDuplicates(wave) && forall n :: n in wave ==> n in remaining && Ready(g, completed, n)
    ensures left == remaining - set n | n in wave
    ensures Progress(g, cached, passes, left, done, log)
    ensures ran <= log && multiset(log[|ran|..]) == multiset(wave)
  {
    left, done, log := remaining, completed, ran;
    var members := set n | n in wave;
    var pending := members;
    DistinctIsSet(wave);
    while pending != {}
      invariant pending <= members && left == remaining - (members - pending)
      invariant forall n :: n in pending ==> n in left && Ready(g, done, n)
      invariant Progress(g, cached, passes, left, done, log)
      invariant ran <= log && multiset(log[|ran|..]) + multiset(pending) == multiset(wave)
      decreases |pending|
    {
      HasMember(pending);
      var n :| n in pending;
      pending := pending - {n};
      forall k | 0 <= k < |g[n]| ensures Settled(cached, passes, log, g[n][k]) { assert g[n][k] in done; }
      RunOne(g, cached, passes, log, n);
      assert (log + [n])[|ran|..] == log[|ran|..] + [n];
      left := left - {n};
      log := log + [n];
      if passes(n) { done := done + {n}; }
    }
  }

  predicate WavesOk(waves: seq<seq<Packet>>, paths: map<Packet, set<string>>, jobs: int) {
    forall i :: 0 <= i < |waves| ==> waves[i] != [] && |waves[i]| <= Max(1, jobs) && Claimed(waves[i], paths) && ConflictFree(waves[i], paths)
  }

  /** The scheduling loop. `blocked` is what is left when nothing is runnable. */
  method RunWaves(g: Graph, paths: map<Packet, set<string>>, jobs: int, cached: set<Packet>, passes: Packet -> bool)
    returns (ran: seq<Packet>, waves: seq<seq<Packet>>, blocked: set<Packet>)
    requires g.Keys <= paths.Keys
    ensures NoDuplicates(ran) && (forall n :: n in ran <==> n in g && n !in cached && n !in blocked)
    ensures blocked <= g.Keys - cached && DependenciesFirst(g, cached, passes, ran)
    ensures forall n :: n in blocked ==> Starved(g, cached, passes, ran, n)
    ensures WavesOk(waves, paths, jobs) && Blocks(waves, ran) && WavesReady(g, cached, passes, waves)
  {
    var remaining, completed := g.Keys - cached, cached;
    ran, waves := [], [];
    while remaining != {}
      invariant Progress(g, cached, passes, remaining, completed, ran)
      invariant WavesOk(waves, paths, jobs) && Blocks(waves, ran) && WavesReady(g, cached, passes, waves)
      decreases |remaining|
    {
      var runnable := Runnable(g, remaining, completed);
      if runnable == [] {
        forall n | n in remaining ensures Starved(g, cached, passes, ran, n) { assert !Ready(g, completed, n); }
        return ran, waves, remaining;
      }
      forall i | 0 <= i < |runnable| ensures runnable[i] in paths { assert runnable[i] in runnable; }
      var wave := SelectWave(runnable, paths, jobs);
      assert wave[0] in wave;
      SubsequenceDistinct(wave, runnable);
      ghost var before, sofar := remaining, ran;
      AddReady(g, cached, passes, waves, wave, completed, ran);
      remaining, completed, ran := RunWave(g, cached, passes, wave, remaining, completed, ran);
      AddBlock(waves, sofar, wave, ran);
      AddOk(waves, wave, paths, jobs);
      waves := waves + [wave];
      assert remaining < before;
      SmallerSet(remaining, before);
    }
    blocked := {};
  }

  /** Some dependency is neither cached nor passed. */
  predicate Starved(g: Graph, cached: set<Packet>, passes: Packet -> bool, ran: seq<Packet>, n: Packet) {
    n in g && exists k :: 0 <= k < |g[n]| && !Settled(cached, passes, ran, g[n][k])
  }

  /** A packet that ran and did not pass. */
  predicate Failed(passes: Packet -> bool, ran: seq<Packet>, n: Packet) { n in ran && !passes(n) }

  /** A set of uncached packets that includes every one with a failed dependency or a dependency in the set. */
  ghost predicate Closed(g: Graph, cached: set<Packet>, passes: Packet -> bool, ran: seq<Packet>, s: set<Packet>) {
    forall n, d :: Edge(g, n, d) && n !in cached && (Failed(passes, ran, d) || d in s) ==> n in s
  }

  /** The blocked packets form such a set. */
  lemma BlockedIsClosed(g: Graph, cached: set<Packet>, passes: Packet -> bool, ran: seq<Packet>, blocked: set<Packet>)
    requires DependenciesFirst(g, cached, passes, ran) && NoDuplicates(ran) && blocked <= g.Keys - cached
    requires forall n :: n in ran <==> n in g && n !in cached && n !in blocked
    ensures Closed(g, cached, passes, ran, blocked)
  {
    forall n, d | Edge(g, n, d) && n !in cached && (Failed(passes, ran, d) || d in blocked) ensures n in blocked {
      if n in ran { RanIsReady(g, cached, passes, ran, n, d); }
    }
  }

  lemma RanIsReady(g: Graph, cached: set<Packet>, passes: Packet -> bool, ran: seq<Packet>, n: Packet, d: Packet)
    requires DependenciesFirst(g, cached, passes, ran) && n in ran && Edge(g, n, d)
    ensures Settled(cached, passes, ran, d)
  {
    var i :| 0 <= i < |ran| && ran[i] == n;
    assert ReadyAt(g, cached, passes, ran, i);
    var k :| 0 <= k < |g[n]| && g[n][k] == d;
    assert Settled(cached, passes, ran[..i], g[n][k]);
  }

  /** And it is the least: on a sound graph a packet is blocked only by a failure somewhere below it. */
  lemma {:induction false} BlockedIsLeast(g: Graph, order: seq<Packet>, cached: set<Packet>, passes: Packet -> bool, ran: seq<Packet>,
                                          blocked: set<Packet>, s: set<Packet>, n: Packet)
    requires Ordered(g, order) && (forall x :: x in order <==> x in g)
    requires forall x :: x in ran <==> x in g && x !in cached && x !in blocked
    requires blocked <= g.Keys - cached && forall x :: x in blocked ==> Starved(g, cached, passes, ran, x)
    requires Closed(g, cached, passes, ran, s) && n in blocked
    ensures n in s
    decreases Position(order, n)
  {
    assert Starved(g, cached, passes, ran, n);
    var k :| 0 <= k < |g[n]| && !Settled(cached, passes, ran, g[n][k]);
    var d := g[n][k];
    assert Edge(g, n, d);
    EdgeDescends(g, order, n, d);
    if d in blocked {
      BlockedIsLeast(g, order, cached, passes, ran, blocked, s, d);
    } else {
      assert Failed(passes, ran, d);
    }
  }

  function CachedRecords(ns: seq<Packet>): seq<Record> {
    seq(|ns|, i requires 0 <= i < |ns| => Cached(ns[i]))
  }

  predicate Succeeded(r: Record) { r.Cached? || (r.Ran? && r.pass) }

  /** run_plan after parsing: the graph check, the cached records, the waves and the final status. */
  method RunPlan(g: Graph, numbers: seq<Packet>, paths: map<Packet, set<string>>, jobs: int, cached: set<Packet>, passes: Packet -> bool)
    returns (status: Status, records: seq<Record>, ran: seq<Packet>, waves: seq<seq<Packet>>, blocked: set<Packet>)
    requires (forall x :: x in numbers <==> x in g) && g.Keys <= paths.Keys && cached <= g.Keys
    ensures status.Rejected? <==> !(DependenciesKnown(g) && Acyclic(g))
    ensures status.Rejected? ==> ran == [] && waves == []
    ensures !status.Rejected? ==>
      && NoDuplicates(ran) && (forall n :: n in ran <==> n in g && n !in cached && n !in blocked)
      && DependenciesFirst(g, cached, passes, ran)
      && WavesOk(waves, paths, jobs) && Blocks(waves, ran) && WavesReady(g, cached, passes, waves)
      && Closed(g, cached, passes, ran, blocked)
      && (forall s: set<Packet> :: Closed(g, cached, passes, ran, s) ==> blocked <= s)
    ensures status.Pass? <==> !status.Rejected? && forall n :: n in g ==> Settled(cached, passes, ran, n)
  {
    var errors, order := CheckGraph(g, numbers);
    records, ran, waves, blocked := [], [], [], {};
    if errors != [] { return Rejected, [], [], [], {}; }
    var done := Sorted(cached);
    records := CachedRecords(done);
    ran, waves, blocked := RunWaves(g, paths, jobs, cached, passes);
    BlockedIsClosed(g, cached, passes, ran, blocked);
    forall s: set<Packet> | Closed(g, cached, passes, ran, s) ensures blocked <= s {
      forall n | n in blocked ensures n in s { BlockedIsLeast(g, order, cached, passes, ran, blocked, s, n); }
    }
    records := records + seq(|ran|, i requires 0 <= i < |ran| => Ran(ran[i], passes(ran[i])));
    if blocked != {} { records := records + [Blocked(blocked)]; }
    status := FinalStatus(g, cached, passes, ran, blocked, done, records);
  }

  /** `all(record is pass or cached)` and nothing remaining. */
  method FinalStatus(g: Graph, cached: set<Packet>, passes: Packet -> bool, ran: seq<Packet>, blocked: set<Packet>, done: seq<Packet>,
                     records: seq<Record>)
    returns (status: Status)
    requires blocked <= g.Keys - cached && cached <= g.Keys && forall n :: n in ran <==> n in g && n !in cached && n !in blocked
    requires records == CachedRecords(done) + seq(|ran|, i requires 0 <= i < |ran| => Ran(ran[i], passes(ran[i])))
                        + (if blocked != {} then [Blocked(blocked)] else [])
    ensures status == if forall n :: n in g ==> Settled(cached, passes, ran, n) then Pass else Fail
  {
    var i, good := 0, true;
    while i < |records|
      invariant 0 <= i <= |records| && (good <==> forall k :: 0 <= k < i ==> Succeeded(records[k]))
    {
      good := good && Succeeded(records[i]);
      i := i + 1;
    }
    if good && blocked == {} {
      forall n | n in g ensures Settled(cached, passes, ran, n) {
        if n !in cached {
          var k :| 0 <= k < |ran| && ran[k] == n;
          assert Succeeded(records[|done| + k]);
        }
      }
      return Pass;
    }
    if blocked != {} {
      HasMember(blocked);
      var n :| n in blocked;
      assert !Settled(cached, passes, ran, n);
    } else {
      var k :| 0 <= k < |records| && !Succeeded(records[k]);
      assert records[k] == Ran(ran[k - |done|], passes(ran[k - |done|]));
      assert !Settled(cached, passes, ran, ran[k - |done|]);
    }
    status := Fail;
  }
}
