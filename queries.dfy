/**
 * The structural queries over the registry (dash/dash.py:1303-1339) as
 * specification functions: which callbacks are live in the layout, which of a
 * list of candidates meet or miss a set of properties, and the "feeds" relation
 * between callbacks that `_initial_callbacks` peels.
 */
module Queries {
  import opened Props
  import opened Services
  import opened Callbacks

  /** The `service_test` lambdas the engine passes around: `lambda x: True`,
      `Services.shared_test`, and the `_initial_callbacks` test. */
  datatype ServiceTest = AnyService | SharedOnly | SharedInitial

  predicate Passes(t: ServiceTest, service: nat)
  {
    match t
    case AnyService => true
    case SharedOnly => IsShared(service)
    case SharedInitial => InitialTest(service)
  }

  /** The input tests of `_callback_intersect` and `_callback_diff`. */
  datatype InputTest = Meets(props: seq<Dep>) | Misses(props: seq<Dep>)

  predicate Holds(t: InputTest, inputs: seq<Dep>)
  {
    match t
    case Meets(props) => IntersectIds(inputs, props)
    case Misses(props) => !IntersectIds(inputs, props)
  }

  predicate InRegistry(xs: seq<string>, cmap: map<string, Entry>)
  {
    forall k :: 0 <= k < |xs| ==> xs[k] in cmap
  }

  /** `r` is `xs` with some elements left out, the others kept in order. */
  predicate IsSubsequence(r: seq<string>, xs: seq<string>)
    decreases |xs|
  {
    if r == [] then true
    else if xs == [] then false
    else if r[|r| - 1] == xs[|xs| - 1] then IsSubsequence(r[..|r| - 1], xs[..|xs| - 1])
    else IsSubsequence(r, xs[..|xs| - 1])
  }

  // ---------------------------------------------------------------------------
  // _valid_callback_ids

  /** Every input and output of the entry names a component of the layout. */
  predicate Live(e: Entry, layout: map<string, map<string, Value>>)
  {
    forall d :: d in e.inputs + e.outputs ==> d.id in layout
  }

  /** The ids of `xs`, in order, whose service passes `t` and that are live. */
  function ValidIdsIn(xs: seq<string>, cmap: map<string, Entry>, layout: map<string, map<string, Value>>, t: ServiceTest): seq<string>
    requires InRegistry(xs, cmap)
    decreases |xs|
  {
    if xs == [] then []
    else
      var n := |xs| - 1;
      ValidIdsIn(xs[..n], cmap, layout, t) + (if Passes(t, cmap[xs[n]].service) && Live(cmap[xs[n]], layout) then [xs[n]] else [])
  }

  /** `_valid_callback_ids` keeps exactly the callbacks whose service passes the
      test and whose every input and output id is a key of the layout, in
      registry order. */
  lemma ValidIdsMembers(xs: seq<string>, cmap: map<string, Entry>, layout: map<string, map<string, Value>>, t: ServiceTest)
    requires InRegistry(xs, cmap)
    ensures forall x :: x in ValidIdsIn(xs, cmap, layout, t) <==> x in xs && Passes(t, cmap[x].service) && Live(cmap[x], layout)
    ensures IsSubsequence(ValidIdsIn(xs, cmap, layout, t), xs)
  {
    ValidIdsHas(xs, cmap, layout, t);
    ValidIdsInOrder(xs, cmap, layout, t);
  }

  lemma {:induction false} ValidIdsHas(xs: seq<string>, cmap: map<string, Entry>, layout: map<string, map<string, Value>>, t: ServiceTest)
    requires InRegistry(xs, cmap)
    ensures forall x :: x in ValidIdsIn(xs, cmap, layout, t) <==> x in xs && Passes(t, cmap[x].service) && Live(cmap[x], layout)
    decreases |xs|
  {
    if xs != [] {
      var n := |xs| - 1;
      ValidIdsHas(xs[..n], cmap, layout, t);
      assert xs == xs[..n] + [xs[n]];
    }
  }

  lemma {:induction false} ValidIdsInOrder(xs: seq<string>, cmap: map<string, Entry>, layout: map<string, map<string, Value>>, t: ServiceTest)
    requires InRegistry(xs, cmap)
    ensures IsSubsequence(ValidIdsIn(xs, cmap, layout, t), xs)
    decreases |xs|
  {
    if xs != [] {
      var n := |xs| - 1;
      ValidIdsInOrder(xs[..n], cmap, layout, t);
      var r := ValidIdsIn(xs, cmap, layout, t);
      assert xs[..|xs| - 1] == xs[..n];
      if Passes(t, cmap[xs[n]].service) && Live(cmap[xs[n]], layout) {
        assert r[..|r| - 1] == ValidIdsIn(xs[..n], cmap, layout, t);
      } else {
        assert r == ValidIdsIn(xs[..n], cmap, layout, t);
        SubsequenceExtend(r, xs);
      }
    }
  }

  lemma ValidIdsInRegistry(xs: seq<string>, cmap: map<string, Entry>, layout: map<string, map<string, Value>>, t: ServiceTest)
    requires InRegistry(xs, cmap)
    ensures InRegistry(ValidIdsIn(xs, cmap, layout, t), cmap)
  {
    var r := ValidIdsIn(xs, cmap, layout, t);
    ValidIdsMembers(xs, cmap, layout, t);
    forall k | 0 <= k < |r| ensures r[k] in cmap {
      assert r[k] in r;
    }
  }

  /** A subsequence of `xs[..n]` is one of `xs`. */
  lemma {:induction false} SubsequenceExtend(r: seq<string>, xs: seq<string>)
    requires xs != [] && IsSubsequence(r, xs[..|xs| - 1])
    ensures IsSubsequence(r, xs)
    decreases |xs|, 1
  {
    if r != [] && r[|r| - 1] == xs[|xs| - 1] {
      SubsequenceDropLast(r, xs[..|xs| - 1]);
    }
  }

  lemma {:induction false} SubsequenceDropLast(r: seq<string>, xs: seq<string>)
    requires r != [] && IsSubsequence(r, xs)
    ensures IsSubsequence(r[..|r| - 1], xs)
    decreases |xs|, 2
  {
    var n := |xs| - 1;
    if r[|r| - 1] == xs[n] {
      SubsequenceExtend(r[..|r| - 1], xs);
    } else {
      SubsequenceDropLast(r, xs[..n]);
      SubsequenceExtend(r[..|r| - 1], xs);
    }
  }

  /** Membership in the live set depends on the layout only through its keys. */
  lemma {:induction false} ValidIdsSameKeys(xs: seq<string>, cmap: map<string, Entry>, l1: map<string, map<string, Value>>, l2: map<string, map<string, Value>>, t: ServiceTest)
    requires InRegistry(xs, cmap) && l1.Keys == l2.Keys
    ensures ValidIdsIn(xs, cmap, l1, t) == ValidIdsIn(xs, cmap, l2, t)
    decreases |xs|
  {
    if xs != [] {
      var n := |xs| - 1;
      ValidIdsSameKeys(xs[..n], cmap, l1, l2, t);
      assert Live(cmap[xs[n]], l1) == Live(cmap[xs[n]], l2);
    }
  }

  // ---------------------------------------------------------------------------
  // _callback_compare

  /** One of the two lists `_callback_compare` builds from `xs`: the candidates
      whose inputs pass `test` and whose service passes `st` (`want`) or fails it
      (not `want`). */
  function Select(xs: seq<string>, cmap: map<string, Entry>, test: InputTest, st: ServiceTest, want: bool): seq<string>
    requires InRegistry(xs, cmap)
    decreases |xs|
  {
    if xs == [] then []
    else
      var n := |xs| - 1;
      var e := cmap[xs[n]];
      Select(xs[..n], cmap, test, st, want) + (if Holds(test, e.inputs) && Passes(st, e.service) == want then [xs[n]] else [])
  }

  /** A candidate is in a list exactly when its inputs pass the test and its service
      matches the list; a candidate failing the test is in neither; order is kept. */
  lemma SelectMembers(xs: seq<string>, cmap: map<string, Entry>, test: InputTest, st: ServiceTest, want: bool)
    requires InRegistry(xs, cmap)
    ensures forall x :: x in Select(xs, cmap, test, st, want) <==>
      x in xs && Holds(test, cmap[x].inputs) && Passes(st, cmap[x].service) == want
    ensures IsSubsequence(Select(xs, cmap, test, st, want), xs)
  {
    SelectHas(xs, cmap, test, st, want);
    SelectInOrder(xs, cmap, test, st, want);
  }

  lemma {:induction false} SelectHas(xs: seq<string>, cmap: map<string, Entry>, test: InputTest, st: ServiceTest, want: bool)
    requires InRegistry(xs, cmap)
    ensures forall x :: x in Select(xs, cmap, test, st, want) <==>
      x in xs && Holds(test, cmap[x].inputs) && Passes(st, cmap[x].service) == want
    decreases |xs|
  {
    if xs != [] {
      var n := |xs| - 1;
      SelectHas(xs[..n], cmap, test, st, want);
      assert xs == xs[..n] + [xs[n]];
    }
  }

  lemma {:induction false} SelectInOrder(xs: seq<string>, cmap: map<string, Entry>, test: InputTest, st: ServiceTest, want: bool)
    requires InRegistry(xs, cmap)
    ensures IsSubsequence(Select(xs, cmap, test, st, want), xs)
    decreases |xs|
  {
    if xs != [] {
      var n := |xs| - 1;
      var s := Select(xs[..n], cmap, test, st, want);
      SelectInOrder(xs[..n], cmap, test, st, want);
      var r := Select(xs, cmap, test, st, want);
      if Holds(test, cmap[xs[n]].inputs) && Passes(st, cmap[xs[n]].service) == want {
        assert r == s + [xs[n]];
        assert r[..|r| - 1] == s && r[|r| - 1] == xs[n];
      } else {
        assert r == s;
        SubsequenceExtend(r, xs);
      }
    }
  }

  /** Intersect and diff over the same candidates and properties: every candidate
      lands in exactly one of the four lists. */
  lemma FourWayPartition(xs: seq<string>, cmap: map<string, Entry>, props: seq<Dep>, st: ServiceTest, x: string)
    requires InRegistry(xs, cmap) && x in xs
    ensures (if x in Select(xs, cmap, Meets(props), st, true) then 1 else 0)
          + (if x in Select(xs, cmap, Meets(props), st, false) then 1 else 0)
          + (if x in Select(xs, cmap, Misses(props), st, true) then 1 else 0)
          + (if x in Select(xs, cmap, Misses(props), st, false) then 1 else 0) == 1
  {
    SelectMembers(xs, cmap, Meets(props), st, true);
    SelectMembers(xs, cmap, Meets(props), st, false);
    SelectMembers(xs, cmap, Misses(props), st, true);
    SelectMembers(xs, cmap, Misses(props), st, false);
  }

  // ---------------------------------------------------------------------------
  // The feeding relation peeled by _initial_callbacks

  /** The outputs of the callbacks `xs`, concatenated. */
  function OutputsOfAll(xs: seq<string>, cmap: map<string, Entry>): seq<Dep>
    requires InRegistry(xs, cmap)
    decreases |xs|
  {
    if xs == [] then []
    else
      var n := |xs| - 1;
      OutputsOfAll(xs[..n], cmap) + cmap[xs[n]].outputs
  }

  /** Callback `a` writes a property that callback `b` takes as input. */
  predicate Feeds(cmap: map<string, Entry>, a: string, b: string)
    requires a in cmap && b in cmap
  {
    IntersectIds(cmap[b].inputs, cmap[a].outputs)
  }

  lemma {:induction false} OutputsOfAllMembers(xs: seq<string>, cmap: map<string, Entry>, d: Dep)
    requires InRegistry(xs, cmap)
    ensures d in OutputsOfAll(xs, cmap) <==> exists q :: q in xs && d in cmap[q].outputs
    decreases |xs|
  {
    if xs != [] {
      var n := |xs| - 1;
      OutputsOfAllMembers(xs[..n], cmap, d);
      assert xs == xs[..n] + [xs[n]];
    }
  }

  /** A callback misses the outputs of `xs` exactly when no callback of `xs` feeds it:
      the roots `_callback_diff` finds are the callbacks no pending callback feeds. */
  lemma RootsUnfed(xs: seq<string>, cmap: map<string, Entry>, p: string)
    requires InRegistry(xs, cmap) && p in cmap
    ensures !IntersectIds(cmap[p].inputs, OutputsOfAll(xs, cmap)) <==> forall q :: q in xs ==> !Feeds(cmap, q, p)
  {
    var ins := cmap[p].inputs;
    var outs := OutputsOfAll(xs, cmap);
    if IntersectIds(ins, outs) {
      var i, j :| 0 <= i < |ins| && 0 <= j < |outs| && ins[i] == outs[j];
      OutputsOfAllMembers(xs, cmap, outs[j]);
      var q :| q in xs && outs[j] in cmap[q].outputs;
      var k :| 0 <= k < |cmap[q].outputs| && cmap[q].outputs[k] == outs[j];
      assert Feeds(cmap, q, p);
    } else {
      forall q | q in xs ensures !Feeds(cmap, q, p) {
        if Feeds(cmap, q, p) {
          var i, k :| 0 <= i < |ins| && 0 <= k < |cmap[q].outputs| && ins[i] == cmap[q].outputs[k];
          OutputsOfAllMembers(xs, cmap, ins[i]);
          assert false;
        }
      }
    }
  }

  /** `rank` orders the feeding relation among `s`: a callback is ranked below every
      callback of `s` it feeds (a callback feeding itself has no rank). */
  predicate Ranked(rank: map<string, nat>, s: set<string>, cmap: map<string, Entry>)
  {
    && s <= rank.Keys && s <= cmap.Keys
    && forall a, b :: a in s && b in s && Feeds(cmap, a, b) ==> rank[a] < rank[b]
  }

  /** The callbacks `s` form a directed acyclic graph under the feeding relation. */
  ghost predicate Acyclic(s: set<string>, cmap: map<string, Entry>)
  {
    exists rank :: Ranked(rank, s, cmap)
  }

  lemma {:induction false} MinRank(s: set<string>, rank: map<string, nat>) returns (p: string)
    requires s != {} && s <= rank.Keys
    ensures p in s && forall q :: q in s ==> rank[p] <= rank[q]
    decreases |s|
  {
    var x :| x in s;
    if s == {x} {
      p := x;
    } else {
      var m := MinRank(s - {x}, rank);
      p := if rank[x] <= rank[m] then x else m;
    }
  }

  /** Every non-empty acyclic set of callbacks has one that no member of the set feeds. */
  lemma RootExists(s: set<string>, cmap: map<string, Entry>)
    requires s != {} && Acyclic(s, cmap)
    ensures exists p :: p in s && forall q :: q in s ==> !Feeds(cmap, q, p)
  {
    var rank :| Ranked(rank, s, cmap);
    var p := MinRank(s, rank);
    assert forall q :: q in s ==> !Feeds(cmap, q, p);
  }

  /** Removing callbacks keeps a set acyclic. */
  lemma AcyclicSubset(s: set<string>, t: set<string>, cmap: map<string, Entry>)
    requires Acyclic(s, cmap) && t <= s
    ensures Acyclic(t, cmap)
  {
    var rank :| Ranked(rank, s, cmap);
    assert Ranked(rank, t, cmap);
  }

  // ---------------------------------------------------------------------------
  // The callbacks `_initial_callbacks` runs and the callbacks a chain reaches

  /** Some input of the entry is a property of the component `cid`. */
  predicate OnComponent(e: Entry, cid: string)
  {
    exists d :: d in e.inputs && d.id == cid
  }

  predicate Touches(e: Entry, comps: seq<Comp>)
  {
    exists c :: c in comps && OnComponent(e, c.id)
  }

  /** The pending set `_initial_callbacks` seeds (dash/dash.py:1410-1425): live
      callbacks passing the initial test, without args, with an input on one of
      the new components. `done` is the set of callbacks that have args. */
  function PendingIn(order: seq<string>, cmap: map<string, Entry>, layout: map<string, map<string, Value>>, done: set<string>, comps: seq<Comp>): set<string>
    requires InRegistry(order, cmap)
  {
    set o | o in cmap && o in ValidIdsIn(order, cmap, layout, SharedInitial) && o !in done && Touches(cmap[o], comps)
  }

  /** A subset is no larger than its superset. */
  lemma {:induction false} SubsetNoLarger(a: set<string>, b: set<string>)
    requires a <= b
    ensures |a| <= |b|
    decreases |a|
  {
    if a != {} {
      var x :| x in a;
      SubsetNoLarger(a - {x}, b - {x});
    }
  }

  /** A proper subset is smaller: the measure the initial-callback worklist shrinks by. */
  lemma ProperSubsetSmaller(a: set<string>, b: set<string>)
    requires a < b
    ensures |a| < |b|
  {
    var x :| x in b && x !in a;
    SubsetNoLarger(a, b - {x});
  }

  /** Every callback passing the initial test has args (dash/dash.py:1402-1406). */
  predicate AllInitialDone(cmap: map<string, Entry>, done: set<string>)
  {
    forall o :: o in cmap && InitialTest(cmap[o].service) ==> o in done
  }

  /** Once a run has given args to every callback it found pending, a second run over
      the same components and a layout with the same ids finds nothing pending. */
  lemma SecondCallFindsNothing(order: seq<string>, cmap: map<string, Entry>, l0: map<string, map<string, Value>>,
                               l1: map<string, map<string, Value>>, d0: set<string>, d1: set<string>, comps: seq<Comp>)
    requires InRegistry(order, cmap) && l0.Keys == l1.Keys && d0 <= d1
    requires PendingIn(order, cmap, l0, d0, comps) <= d1
    ensures PendingIn(order, cmap, l1, d1, comps) == {}
  {
    ValidIdsSameKeys(order, cmap, l0, l1, SharedInitial);
  }

  /** When every callback passing the initial test has args, nothing is pending. */
  lemma AllDoneNothingPending(order: seq<string>, cmap: map<string, Entry>, layout: map<string, map<string, Value>>, done: set<string>, comps: seq<Comp>)
    requires InRegistry(order, cmap) && AllInitialDone(cmap, done)
    ensures PendingIn(order, cmap, layout, done, comps) == {}
  {
    ValidIdsMembers(order, cmap, layout, SharedInitial);
  }

  /** The shared (`shared`) or non-shared (not `shared`) live callbacks with an
      input among `mods` (`_callback_intersect(mods_to_list(mods), shared_test)`). */
  function ChainTargets(order: seq<string>, cmap: map<string, Entry>, layout: map<string, map<string, Value>>, mods: seq<Change>, shared: bool): seq<string>
    requires InRegistry(order, cmap)
  {
    ValidIdsInRegistry(order, cmap, layout, AnyService);
    Select(ValidIdsIn(order, cmap, layout, AnyService), cmap, Meets(DepsOf(mods)), SharedOnly, shared)
  }

  /** Which callbacks a chain reaches depends on which components exist, not on
      their property values: writing properties never changes the chain. */
  lemma ChainTargetsSameKeys(order: seq<string>, cmap: map<string, Entry>, l1: map<string, map<string, Value>>, l2: map<string, map<string, Value>>, mods: seq<Change>, shared: bool)
    requires InRegistry(order, cmap) && l1.Keys == l2.Keys
    ensures ChainTargets(order, cmap, l1, mods, shared) == ChainTargets(order, cmap, l2, mods, shared)
  {
    ValidIdsSameKeys(order, cmap, l1, l2, AnyService);
  }
}
