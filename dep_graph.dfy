/**
 * The dependency graph kept by packages/reactivity/src/effect.ts (and its
 * copy in lib/x-mini-vue.cjs.js), as a value: `targetMap` (target -> key ->
 * Set of effects), the `dep` Set of every ref, and the per-effect records.
 * JavaScript Sets iterate in insertion order, so a Set of effects is an
 * ordered sequence without duplicates.
 */
module DepGraph {
  import opened Values

  type EffectId = nat

  /** A dependency Set: the one of a reactive field, or the one of a ref. */
  datatype Dep = KeyDep(target: nat, key: Key) | RefDep(ref: nat)

  /**
   * A `ReactiveEffect`. The user function `fn` is abstracted as the
   * dependency Sets its reads ask to be tracked in (in order) and the value
   * it returns; `scheduler` and `onStop` as whether they were given.
   */
  datatype EffectRec = EffectRec(
    body: seq<Dep>,
    result: Value,
    hasScheduler: bool,
    hasOnStop: bool,
    active: bool,
    deps: seq<Dep>)

  datatype Graph = Graph(
    targetMap: map<nat, map<Key, seq<EffectId>>>,
    refDeps: seq<seq<EffectId>>,
    effects: seq<EffectRec>)

  predicate NoDup<T(==)>(s: seq<T>)
  {
    forall i, j | 0 <= i < j < |s| :: s[i] != s[j]
  }

  /** The Set exists: a field Set once `track` created it, a ref Set once the ref exists. */
  predicate HasDep(g: Graph, d: Dep)
  {
    match d
    case KeyDep(t, k) => t in g.targetMap && k in g.targetMap[t]
    case RefDep(r) => r < |g.refDeps|
  }

  /** The members of a Set, in insertion order; a Set that does not exist has none. */
  function Subs(g: Graph, d: Dep): seq<EffectId>
  {
    match d
    case KeyDep(t, k) =>
      if t in g.targetMap && k in g.targetMap[t] then g.targetMap[t][k] else []
    case RefDep(r) => if r < |g.refDeps| then g.refDeps[r] else []
  }

  /** Replace the members of a Set, creating the target's map and the key's Set on first use. */
  function SetSubs(g: Graph, d: Dep, s: seq<EffectId>): (g': Graph)
    requires d.RefDep? ==> d.ref < |g.refDeps|
    ensures HasDep(g', d) && Subs(g', d) == s && g'.effects == g.effects
    ensures forall d' | d' != d :: Subs(g', d') == Subs(g, d') && (HasDep(g', d') <==> HasDep(g, d'))
  {
    match d
    case KeyDep(t, k) =>
      var inner := if t in g.targetMap then g.targetMap[t] else map[];
      g.(targetMap := g.targetMap[t := inner[k := s]])
    case RefDep(r) => g.(refDeps := g.refDeps[r := s])
  }

  /** `Set.add`: appends only a new member. */
  function Added<T(==,!new)>(s: seq<T>, e: T): (r: seq<T>)
    ensures forall x :: x in r <==> x in s || x == e
    ensures NoDup(s) ==> NoDup(r)
    ensures e in s ==> r == s
    ensures |s| <= |r| && r[..|s|] == s
  {
    if e in s then s else s + [e]
  }

  /** `Set.delete`: drops the member, keeping the order of the others. */
  function Removed(s: seq<EffectId>, e: EffectId): (r: seq<EffectId>)
    ensures forall x :: x in r <==> x in s && x != e
    ensures NoDup(s) ==> NoDup(r)
    ensures e !in s ==> r == s
  {
    if s == [] then []
    else if s[0] == e then Removed(s[1..], e)
    else
      var rest := Removed(s[1..], e);
      if NoDup(s) then NoDupCons(s[0], rest); [s[0]] + rest else [s[0]] + rest
  }

  lemma NoDupCons(x: EffectId, s: seq<EffectId>)
    requires NoDup(s) && x !in s
    ensures NoDup([x] + s)
  {
    forall i, j | 0 <= i < j < |[x] + s| ensures ([x] + s)[i] != ([x] + s)[j] {
      if i > 0 { assert ([x] + s)[i] == s[i - 1]; }
      assert ([x] + s)[j] == s[j - 1];
    }
  }

  /**
   * `trackEffects(dep)` with `activeEffect == e`, preceded (for a field Set)
   * by `track` creating the target's map and the key's Set on first use: `e`
   * joins the Set and the Set joins `e.deps`, both only if `e` was not a
   * member yet.
   */
  function SubscribeTo(g: Graph, e: EffectId, d: Dep): Graph
    requires e < |g.effects|
    requires d.RefDep? ==> d.ref < |g.refDeps|
  {
    var s := Subs(g, d);
    if e in s then g
    else
      var g1 := SetSubs(g, d, s + [e]);
      g1.(effects := g.effects[e := g.effects[e].(deps := g.effects[e].deps + [d])])
  }

  /** Every ref Set an effect may ask for exists. */
  predicate RefReadsExist(g: Graph, ds: seq<Dep>)
  {
    forall d | d in ds && d.RefDep? :: d.ref < |g.refDeps|
  }

  /** The tracks issued by one run of `e`'s function, in order. */
  function SubscribeAll(g: Graph, e: EffectId, ds: seq<Dep>): (g': Graph)
    requires e < |g.effects|
    requires RefReadsExist(g, ds)
    ensures SameEffectsButDeps(g, g') && |g'.refDeps| == |g.refDeps|
    decreases |ds|
  {
    if ds == [] then g
    else
      var g0 := SubscribeAll(g, e, ds[..|ds| - 1]);
      SubscribeTo(g0, e, ds[|ds| - 1])
  }

  /** `cleanupEffect`'s loop: delete `e` from each Set in `ds`, front to back. */
  function CleanupDeps(g: Graph, e: EffectId, ds: seq<Dep>): (g': Graph)
    requires RefReadsExist(g, ds)
    ensures g'.effects == g.effects && |g'.refDeps| == |g.refDeps|
    decreases |ds|
  {
    if ds == [] then g
    else CleanupDeps(SetSubs(g, ds[0], Removed(Subs(g, ds[0]), e)), e, ds[1..])
  }

  /**
   * The invariant of the graph: every effect is in a Set exactly when the
   * Set is in its `deps`, neither list has duplicates, and a stopped effect
   * belongs to no Set.
   */
  ghost predicate Consistent(g: Graph)
  {
    SubsNoDup(g) && SubsInDeps(g) && DepsNoDup(g) && DepsInSubs(g) && StoppedUnsubscribed(g) && BodiesExist(g)
  }

  ghost predicate SubsNoDup(g: Graph)
  {
    forall d | HasDep(g, d) :: NoDup(Subs(g, d))
  }

  ghost predicate SubsInDeps(g: Graph)
  {
    forall d: Dep, x: EffectId | x in Subs(g, d) :: x < |g.effects| && d in g.effects[x].deps
  }

  ghost predicate DepsNoDup(g: Graph)
  {
    forall x | 0 <= x < |g.effects| :: NoDup(g.effects[x].deps)
  }

  ghost predicate DepsInSubs(g: Graph)
  {
    forall x, d | 0 <= x < |g.effects| && d in g.effects[x].deps :: HasDep(g, d) && x in Subs(g, d)
  }

  ghost predicate StoppedUnsubscribed(g: Graph)
  {
    forall x | 0 <= x < |g.effects| :: !g.effects[x].active ==> g.effects[x].deps == []
  }

  ghost predicate BodiesExist(g: Graph)
  {
    forall x | 0 <= x < |g.effects| :: RefReadsExist(g, g.effects[x].body)
  }

  /** The fields of every effect other than `deps` are the same in both graphs. */
  predicate SameEffectsButDeps(g: Graph, g': Graph)
  {
    |g'.effects| == |g.effects| &&
    forall x | 0 <= x < |g.effects| ::
      g'.effects[x] == g.effects[x].(deps := g'.effects[x].deps)
  }

  /** What one subscription does: `e` is in the Set afterwards, its old members keep their order, nothing else changes. */
  lemma SubscribeToEffect(g: Graph, e: EffectId, d: Dep)
    requires e < |g.effects|
    requires d.RefDep? ==> d.ref < |g.refDeps|
    ensures var g' := SubscribeTo(g, e, d);
      && HasDep(g', d) == (HasDep(g, d) || e !in Subs(g, d))
      && Subs(g', d) == Added(Subs(g, d), e)
      && (forall d' | d' != d :: Subs(g', d') == Subs(g, d') && (HasDep(g', d') <==> HasDep(g, d')))
      && SameEffectsButDeps(g, g')
      && (forall x | 0 <= x < |g.effects| && x != e :: g'.effects[x] == g.effects[x])
      && |g'.refDeps| == |g.refDeps|
  {
    var s := Subs(g, d);
    if e !in s {
      var g1 := SetSubs(g, d, s + [e]);
      var g' := g1.(effects := g.effects[e := g.effects[e].(deps := g.effects[e].deps + [d])]);
      assert SubscribeTo(g, e, d) == g';
      assert Subs(g', d) == Subs(g1, d) == s + [e] == Added(s, e);
      assert forall d' | d' != d :: Subs(g', d') == Subs(g1, d') && HasDep(g', d') == HasDep(g1, d');
    }
  }

  /** Tracking the same Set twice is the same as tracking it once. */
  lemma {:induction false} SubscribeToIdempotent(g: Graph, e: EffectId, d: Dep)
    requires e < |g.effects|
    requires d.RefDep? ==> d.ref < |g.refDeps|
    ensures SubscribeTo(SubscribeTo(g, e, d), e, d) == SubscribeTo(g, e, d)
  {
    SubscribeToEffect(g, e, d);
  }

  lemma NoDupSnoc<T>(s: seq<T>, x: T)
    requires NoDup(s) && x !in s
    ensures NoDup(s + [x])
  {
  }

  /** The graph `g'` is `g` with `e` newly added to Set `d` and `d` to `e.deps`. */
  ghost predicate AddedEdge(g: Graph, g': Graph, e: EffectId, d: Dep)
  {
    && e < |g.effects|
    && e !in Subs(g, d)
    && HasDep(g', d)
    && Subs(g', d) == Subs(g, d) + [e]
    && (forall d' | d' != d :: Subs(g', d') == Subs(g, d') && (HasDep(g', d') <==> HasDep(g, d')))
    && |g'.effects| == |g.effects|
    && (forall x | 0 <= x < |g.effects| && x != e :: g'.effects[x] == g.effects[x])
    && g'.effects[e] == g.effects[e].(deps := g.effects[e].deps + [d])
    && |g'.refDeps| == |g.refDeps|
  }

  lemma MemberHasDep(g: Graph, d: Dep, x: EffectId)
    requires Consistent(g) && x in Subs(g, d)
    ensures x < |g.effects| && d in g.effects[x].deps
  {
  }

  lemma AddedEdgeSubsInDeps(g: Graph, g': Graph, e: EffectId, d: Dep)
    requires Consistent(g) && AddedEdge(g, g', e, d)
    ensures SubsInDeps(g')
  {
    forall d0: Dep, x: EffectId | x in Subs(g', d0) ensures x < |g'.effects| && d0 in g'.effects[x].deps {
      if d0 == d && x == e {
        assert d in g'.effects[e].deps;
      } else {
        assert x in Subs(g, d0);
        MemberHasDep(g, d0, x);
        if x != e {
          assert g'.effects[x] == g.effects[x];
        }
      }
    }
  }

  lemma AddedEdgeDepsInSubs(g: Graph, g': Graph, e: EffectId, d: Dep)
    requires Consistent(g) && AddedEdge(g, g', e, d)
    ensures DepsInSubs(g')
  {
    forall x, d0 | 0 <= x < |g'.effects| && d0 in g'.effects[x].deps ensures HasDep(g', d0) && x in Subs(g', d0) {
      if x != e || d0 != d {
        if x != e {
          assert g'.effects[x] == g.effects[x];
        }
        assert d0 in g.effects[x].deps;
        assert HasDep(g, d0) && x in Subs(g, d0);
      }
    }
  }

  lemma AddedEdgeNoDup(g: Graph, g': Graph, e: EffectId, d: Dep)
    requires Consistent(g) && AddedEdge(g, g', e, d)
    ensures SubsNoDup(g') && DepsNoDup(g')
  {
    assert d !in g.effects[e].deps;
    NoDupSnoc(Subs(g, d), e);
    NoDupSnoc(g.effects[e].deps, d);
    forall d0 | HasDep(g', d0) ensures NoDup(Subs(g', d0)) {
      if d0 != d { assert HasDep(g, d0); }
    }
    forall x | 0 <= x < |g'.effects| ensures NoDup(g'.effects[x].deps) {
      if x != e { assert g'.effects[x] == g.effects[x]; }
    }
  }

  lemma AddedEdgeConsistent(g: Graph, g': Graph, e: EffectId, d: Dep)
    requires Consistent(g) && AddedEdge(g, g', e, d) && g.effects[e].active
    ensures Consistent(g')
  {
    AddedEdgeSubsInDeps(g, g', e, d);
    AddedEdgeDepsInSubs(g, g', e, d);
    AddedEdgeNoDup(g, g', e, d);
    forall x | 0 <= x < |g'.effects| ensures !g'.effects[x].active ==> g'.effects[x].deps == [] {
      if x != e { assert g'.effects[x] == g.effects[x]; }
    }
    forall x | 0 <= x < |g'.effects| ensures RefReadsExist(g', g'.effects[x].body) {
      assert g'.effects[x].body == g.effects[x].body;
      assert RefReadsExist(g, g.effects[x].body);
    }
  }

  /** A subscription of a running (hence active) effect keeps the graph consistent. */
  lemma SubscribeToConsistent(g: Graph, e: EffectId, d: Dep)
    requires Consistent(g)
    requires e < |g.effects| && g.effects[e].active
    requires d.RefDep? ==> d.ref < |g.refDeps|
    ensures Consistent(SubscribeTo(g, e, d))
  {
    if e !in Subs(g, d) {
      SubscribeToEffect(g, e, d);
      AddedEdgeConsistent(g, SubscribeTo(g, e, d), e, d);
    }
  }

  /** A whole run's subscriptions keep the graph consistent and touch only `e`'s `deps`. */
  lemma {:induction false} SubscribeAllConsistent(g: Graph, e: EffectId, ds: seq<Dep>)
    requires Consistent(g)
    requires e < |g.effects| && g.effects[e].active
    requires RefReadsExist(g, ds)
    ensures Consistent(SubscribeAll(g, e, ds))
    ensures SameEffectsButDeps(g, SubscribeAll(g, e, ds))
    decreases |ds|
  {
    if ds != [] {
      var g0 := SubscribeAll(g, e, ds[..|ds| - 1]);
      SubscribeAllConsistent(g, e, ds[..|ds| - 1]);
      SubscribeToConsistent(g0, e, ds[|ds| - 1]);
      SubscribeToEffect(g0, e, ds[|ds| - 1]);
    }
  }

  /** After a run, `e` is in every Set its function asked for. */
  lemma {:induction false} SubscribeAllSubscribes(g: Graph, e: EffectId, ds: seq<Dep>)
    requires e < |g.effects|
    requires RefReadsExist(g, ds)
    ensures forall d | d in ds :: HasDep(SubscribeAll(g, e, ds), d) && e in Subs(SubscribeAll(g, e, ds), d)
    decreases |ds|
  {
    if ds != [] {
      var g0 := SubscribeAll(g, e, ds[..|ds| - 1]);
      SubscribeAllSubscribes(g, e, ds[..|ds| - 1]);
      SubscribeToEffect(g0, e, ds[|ds| - 1]);
      forall d | d in ds ensures HasDep(SubscribeAll(g, e, ds), d) && e in Subs(SubscribeAll(g, e, ds), d) {
        if d != ds[|ds| - 1] {
          assert d in ds[..|ds| - 1];
        }
      }
    }
  }

  /**
   * A run of `e` never changes a Set that `e` is already in: the Set being
   * iterated by `triggerEffects` stays as it was while its members run.
   */
  lemma {:induction false} SubscribeAllKeepsMemberSet(g: Graph, e: EffectId, ds: seq<Dep>, d: Dep)
    requires e < |g.effects|
    requires RefReadsExist(g, ds)
    requires e in Subs(g, d)
    ensures Subs(SubscribeAll(g, e, ds), d) == Subs(g, d)
    ensures HasDep(SubscribeAll(g, e, ds), d) == HasDep(g, d)
    decreases |ds|
  {
    if ds != [] {
      var g0 := SubscribeAll(g, e, ds[..|ds| - 1]);
      SubscribeAllKeepsMemberSet(g, e, ds[..|ds| - 1], d);
      SubscribeToEffect(g0, e, ds[|ds| - 1]);
    }
  }

  /** `stop()`: when active, `cleanupEffect`, then `active = false`; when stopped, nothing. */
  function StopGraph(g: Graph, e: EffectId): Graph
    requires e < |g.effects| && RefReadsExist(g, g.effects[e].deps)
  {
    if g.effects[e].active then
      var g1 := CleanupDeps(g, e, g.effects[e].deps);
      g1.(effects := g1.effects[e := g1.effects[e].(deps := [], active := false)])
    else g
  }

  lemma {:induction false} CleanupDepsEffect(g: Graph, e: EffectId, ds: seq<Dep>)
    requires RefReadsExist(g, ds)
    ensures var g' := CleanupDeps(g, e, ds);
      forall d :: Subs(g', d) == (if d in ds then Removed(Subs(g, d), e) else Subs(g, d))
              && (HasDep(g', d) <==> HasDep(g, d) || d in ds)
    decreases |ds|
  {
    if ds != [] {
      var g1 := SetSubs(g, ds[0], Removed(Subs(g, ds[0]), e));
      CleanupDepsEffect(g1, e, ds[1..]);
      forall d ensures Subs(CleanupDeps(g, e, ds), d) == (if d in ds then Removed(Subs(g, d), e) else Subs(g, d)) {
        if d == ds[0] {
          assert Subs(g1, d) == Removed(Subs(g, d), e);
        }
      }
    }
  }

  /** `g'` is `g` with `e` deleted from every Set, unsubscribed and stopped. */
  ghost predicate RemovedEverywhere(g: Graph, g': Graph, e: EffectId)
  {
    && e < |g.effects|
    && (forall d :: Subs(g', d) == Removed(Subs(g, d), e) && (HasDep(g', d) <==> HasDep(g, d)))
    && |g'.effects| == |g.effects|
    && (forall x | 0 <= x < |g.effects| && x != e :: g'.effects[x] == g.effects[x])
    && g'.effects[e] == g.effects[e].(deps := [], active := false)
    && |g'.refDeps| == |g.refDeps|
  }

  lemma RemovedEverywhereConsistent(g: Graph, g': Graph, e: EffectId)
    requires Consistent(g) && RemovedEverywhere(g, g', e)
    ensures Consistent(g')
  {
    forall d | HasDep(g', d) ensures NoDup(Subs(g', d)) {
      assert HasDep(g, d);
    }
    assert SubsInDeps(g') by {
      forall d: Dep, x: EffectId | x in Subs(g', d) ensures x < |g'.effects| && d in g'.effects[x].deps {
        assert x in Subs(g, d) && x != e;
        MemberHasDep(g, d, x);
        assert g'.effects[x] == g.effects[x];
      }
    }
    forall x | 0 <= x < |g'.effects| ensures NoDup(g'.effects[x].deps) {
      if x != e { assert g'.effects[x] == g.effects[x]; }
    }
    forall x, d | 0 <= x < |g'.effects| && d in g'.effects[x].deps ensures HasDep(g', d) && x in Subs(g', d) {
      assert x != e;
      assert g'.effects[x] == g.effects[x];
      assert HasDep(g, d) && x in Subs(g, d);
    }
    forall x | 0 <= x < |g'.effects| ensures !g'.effects[x].active ==> g'.effects[x].deps == [] {
      if x != e { assert g'.effects[x] == g.effects[x]; }
    }
    forall x | 0 <= x < |g'.effects| ensures RefReadsExist(g', g'.effects[x].body) {
      assert g'.effects[x].body == g.effects[x].body;
      assert RefReadsExist(g, g.effects[x].body);
    }
  }

  lemma DepsExist(g: Graph, e: EffectId)
    requires Consistent(g) && e < |g.effects|
    ensures RefReadsExist(g, g.effects[e].deps)
  {
    forall d | d in g.effects[e].deps && d.RefDep? ensures d.ref < |g.refDeps| {
      assert HasDep(g, d);
    }
  }

  /**
   * `stop()` of an active effect deletes it from every Set it is in and from
   * no other, keeps the order of the remaining members, empties its `deps`
   * and keeps the graph consistent.
   */
  lemma StopUnsubscribes(g: Graph, e: EffectId)
    requires Consistent(g) && e < |g.effects|
    ensures RefReadsExist(g, g.effects[e].deps)
    ensures g.effects[e].active ==>
      var g' := StopGraph(g, e);
      && RemovedEverywhere(g, g', e)
      && (forall d :: e !in Subs(g', d))
    ensures Consistent(StopGraph(g, e))
  {
    DepsExist(g, e);
    if g.effects[e].active {
      var ds := g.effects[e].deps;
      var g1 := CleanupDeps(g, e, ds);
      CleanupDepsEffect(g, e, ds);
      var g' := StopGraph(g, e);
      forall d ensures Subs(g', d) == Removed(Subs(g, d), e) && (HasDep(g', d) <==> HasDep(g, d)) {
        if d in ds {
          assert HasDep(g, d);
        } else {
          assert e !in Subs(g, d);
        }
      }
      RemovedEverywhereConsistent(g, g', e);
    }
  }

  /** A second `stop()` changes nothing. */
  lemma StopIdempotent(g: Graph, e: EffectId)
    requires Consistent(g) && e < |g.effects|
    ensures RefReadsExist(g, g.effects[e].deps)
    ensures var g' := StopGraph(g, e);
      e < |g'.effects| && !g'.effects[e].active && RefReadsExist(g', g'.effects[e].deps) && StopGraph(g', e) == g'
  {
    StopUnsubscribes(g, e);
  }

  /** A run only appends to `e.deps`: the Sets it was in before stay in its list, in order. */
  lemma {:induction false} SubscribeAllKeepsDeps(g: Graph, e: EffectId, ds: seq<Dep>)
    requires e < |g.effects|
    requires RefReadsExist(g, ds)
    ensures var g' := SubscribeAll(g, e, ds);
      |g.effects[e].deps| <= |g'.effects[e].deps| && g'.effects[e].deps[..|g.effects[e].deps|] == g.effects[e].deps
    decreases |ds|
  {
    if ds != [] {
      var g0 := SubscribeAll(g, e, ds[..|ds| - 1]);
      SubscribeAllKeepsDeps(g, e, ds[..|ds| - 1]);
      var old0 := g0.effects[e].deps;
      var new0 := SubscribeAll(g, e, ds).effects[e].deps;
      assert |old0| <= |new0| && new0[..|old0|] == old0;
      assert new0[..|g.effects[e].deps|] == old0[..|g.effects[e].deps|];
    }
  }

  /** `track`'s first two steps: create the target's map, then the key's empty Set, if missing. */
  function CreateKeyDep(g: Graph, t: nat, k: Key): Graph
  {
    var inner := if t in g.targetMap then g.targetMap[t] else map[];
    if k in inner then g else g.(targetMap := g.targetMap[t := inner[k := []]])
  }

  /**
   * Creating the Set adds an empty Set and changes no member of any Set, so
   * it keeps the graph consistent and does not change what subscribing does.
   */
  lemma CreateKeyDepFacts(g: Graph, t: nat, k: Key)
    ensures var g' := CreateKeyDep(g, t, k);
      && HasDep(g', KeyDep(t, k))
      && (forall d :: Subs(g', d) == Subs(g, d))
      && (forall d | d != KeyDep(t, k) :: HasDep(g', d) == HasDep(g, d))
      && g'.effects == g.effects && g'.refDeps == g.refDeps
      && (Consistent(g) ==> Consistent(g'))
      && (forall e: EffectId | e < |g.effects| :: SubscribeTo(g', e, KeyDep(t, k)) == SubscribeTo(g, e, KeyDep(t, k)))
  {
    CreateKeyDepShape(g, t, k);
    if Consistent(g) {
      CreateKeyDepConsistent(g, t, k);
    }
    forall e: EffectId | e < |g.effects| ensures SubscribeTo(CreateKeyDep(g, t, k), e, KeyDep(t, k)) == SubscribeTo(g, e, KeyDep(t, k)) {
      CreateKeyDepSubscribe(g, t, k, e);
    }
  }

  lemma CreateKeyDepShape(g: Graph, t: nat, k: Key)
    ensures var g' := CreateKeyDep(g, t, k);
      && HasDep(g', KeyDep(t, k))
      && (forall d :: Subs(g', d) == Subs(g, d))
      && (forall d | d != KeyDep(t, k) :: HasDep(g', d) == HasDep(g, d))
      && g'.effects == g.effects && g'.refDeps == g.refDeps
  {
  }

  lemma CreateKeyDepConsistent(g: Graph, t: nat, k: Key)
    requires Consistent(g)
    ensures Consistent(CreateKeyDep(g, t, k))
  {
    var g' := CreateKeyDep(g, t, k);
    CreateKeyDepShape(g, t, k);
    assert SubsNoDup(g') by {
      forall d | HasDep(g', d) ensures NoDup(Subs(g', d)) {
        if d != KeyDep(t, k) { assert HasDep(g, d); }
      }
    }
    assert DepsInSubs(g') by {
      forall x, d | 0 <= x < |g'.effects| && d in g'.effects[x].deps ensures HasDep(g', d) && x in Subs(g', d) {
        assert HasDep(g, d) && x in Subs(g, d);
      }
    }
    SameSubsInDeps(g, g');
    assert DepsNoDup(g') && StoppedUnsubscribed(g');
    assert BodiesExist(g') by {
      forall x | 0 <= x < |g'.effects| ensures RefReadsExist(g', g'.effects[x].body) {
        assert RefReadsExist(g, g.effects[x].body);
      }
    }
  }

  lemma CreateKeyDepSubscribe(g: Graph, t: nat, k: Key, e: EffectId)
    requires e < |g.effects|
    ensures SubscribeTo(CreateKeyDep(g, t, k), e, KeyDep(t, k)) == SubscribeTo(g, e, KeyDep(t, k))
  {
    var g' := CreateKeyDep(g, t, k);
    var inner := if t in g.targetMap then g.targetMap[t] else map[];
    if k !in inner {
      assert Subs(g', KeyDep(t, k)) == [] && Subs(g, KeyDep(t, k)) == [];
      assert Subs(g', KeyDep(t, k)) + [e] == [e] && Subs(g, KeyDep(t, k)) + [e] == [e];
      assert g'.targetMap[t] == inner[k := []];
      assert inner[k := []][k := [e]] == inner[k := [e]];
      assert g.targetMap[t := inner[k := []]][t := inner[k := [e]]] == g.targetMap[t := inner[k := [e]]];
      assert SetSubs(g', KeyDep(t, k), [e]) == SetSubs(g, KeyDep(t, k), [e]);
    }
  }

  /** A new effect starts with no deps; adding it keeps the graph consistent. */
  lemma AppendEffectConsistent(g: Graph, rec: EffectRec)
    requires Consistent(g) && rec.deps == [] && RefReadsExist(g, rec.body)
    ensures Consistent(g.(effects := g.effects + [rec]))
  {
    var g' := g.(effects := g.effects + [rec]);
    assert forall d :: Subs(g', d) == Subs(g, d) && HasDep(g', d) == HasDep(g, d);
    assert forall x | 0 <= x < |g.effects| :: g'.effects[x] == g.effects[x];
    assert g'.effects[|g.effects|] == rec;
    assert SubsNoDup(g');
    SameSubsInDeps(g, g');
    assert BodiesExist(g') by {
      forall x | 0 <= x < |g'.effects| ensures RefReadsExist(g', g'.effects[x].body) {
        if x < |g.effects| { assert RefReadsExist(g, g.effects[x].body); }
      }
    }
    assert DepsInSubs(g') by {
      forall x, d | 0 <= x < |g'.effects| && d in g'.effects[x].deps ensures HasDep(g', d) && x in Subs(g', d) {
        assert x < |g.effects| && d in g.effects[x].deps;
      }
    }
    assert DepsNoDup(g') by {
      forall x | 0 <= x < |g'.effects| ensures NoDup(g'.effects[x].deps) {
        if x < |g.effects| { assert NoDup(g.effects[x].deps); }
      }
    }
    assert StoppedUnsubscribed(g') by {
      forall x | 0 <= x < |g'.effects| ensures !g'.effects[x].active ==> g'.effects[x].deps == [] {
        if x < |g.effects| { assert !g.effects[x].active ==> g.effects[x].deps == []; }
      }
    }
  }

  /** Members stay put and no effect loses a dep: every member still has the Set in its `deps`. */
  lemma SameSubsInDeps(g: Graph, g': Graph)
    requires SubsInDeps(g)
    requires forall d :: Subs(g', d) == Subs(g, d)
    requires |g.effects| <= |g'.effects| && forall x | 0 <= x < |g.effects| :: g'.effects[x].deps == g.effects[x].deps
    ensures SubsInDeps(g')
  {
    forall d: Dep, x: EffectId | x in Subs(g', d) ensures x < |g'.effects| && d in g'.effects[x].deps {
      assert Subs(g', d) == Subs(g, d);
      assert x < |g.effects| && d in g.effects[x].deps;
      assert g'.effects[x].deps == g.effects[x].deps;
    }
  }

  /** The graph at module load: no Set, no effect. */
  lemma EmptyConsistent()
    ensures Consistent(Graph(map[], [], []))
  {
    var g := Graph(map[], [], []);
    assert forall d :: Subs(g, d) == [] && !HasDep(g, d);
  }

  /** A new ref starts with an empty Set; adding it keeps the graph consistent. */
  lemma AppendRefDepConsistent(g: Graph)
    requires Consistent(g)
    ensures Consistent(g.(refDeps := g.refDeps + [[]]))
  {
    var g' := g.(refDeps := g.refDeps + [[]]);
    assert forall d :: Subs(g', d) == Subs(g, d);
    assert SubsNoDup(g') by {
      forall d | HasDep(g', d) ensures NoDup(Subs(g', d)) {
        if d != RefDep(|g.refDeps|) { assert HasDep(g, d); }
      }
    }
    SameSubsInDeps(g, g');
    assert DepsInSubs(g') by {
      forall x, d | 0 <= x < |g'.effects| && d in g'.effects[x].deps ensures HasDep(g', d) && x in Subs(g', d) {
        assert HasDep(g, d) && x in Subs(g, d);
      }
    }
    assert BodiesExist(g') by {
      forall x | 0 <= x < |g'.effects| ensures RefReadsExist(g', g'.effects[x].body) {
        assert RefReadsExist(g, g.effects[x].body);
      }
    }
    assert DepsNoDup(g') && StoppedUnsubscribed(g');
  }

  /** Subscribing never deletes a Set. */
  lemma {:induction false} SubscribeAllKeepsHasDep(g: Graph, e: EffectId, ds: seq<Dep>, d: Dep)
    requires e < |g.effects| && RefReadsExist(g, ds) && HasDep(g, d)
    ensures HasDep(SubscribeAll(g, e, ds), d)
    decreases |ds|
  {
    if ds != [] {
      SubscribeAllKeepsHasDep(g, e, ds[..|ds| - 1], d);
      SubscribeToEffect(SubscribeAll(g, e, ds[..|ds| - 1]), e, ds[|ds| - 1]);
    }
  }
}
