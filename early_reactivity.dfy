/**
 * The first reactivity of the repository, src/reactivity/effect.ts,
 * src/reactivity/baseHandlers.ts and src/reactivity/reactive.ts.
 *
 * It differs from the later one in ways that change what programs do:
 * `track` adds `activeEffect` to the Set unconditionally (so a read outside
 * any effect subscribes whichever effect ran last, or `undefined` when none
 * has); `run` sets `activeEffect` and never clears it; `trigger` throws when
 * the target or key was never tracked, and again when it reaches the
 * `undefined` member; a readonly `set` returns true without a warning; and
 * nothing is wrapped or unwrapped on a read.
 *
 * The object store is the arena of `Handlers`: plain objects and proxies,
 * each proxy's target made before it.
 */
module EarlyReactivity {
  import opened Values
  import opened Wrappers
  import DepGraph
  import opened Handlers

  /** A `(target, key)` pair, and an access `proxy.key` in an effect's function. */
  datatype Loc = Loc(obj: nat, key: Key)

  /**
   * The global state: the objects, `targetMap` (members are effect ids, or
   * `None` for the `undefined` a read outside every effect adds), the reads
   * each effect's function makes, `activeEffect`, and the log of runs.
   */
  datatype EState = EState(
    heap: seq<Entity>,
    targetMap: map<nat, map<Key, seq<Option<nat>>>>,
    bodies: seq<seq<Loc>>,
    activeEffect: Option<nat>,
    runs: seq<nat>)

  /** What a `set` (or a `trigger`) leaves, and whether it returned rather than threw. */
  datatype Outcome = Outcome(state: EState, ok: bool)

  /** What a `get` returns and the state after the `track` calls it made. */
  datatype Got = Got(value: Value, state: EState)

  predicate Has(tm: map<nat, map<Key, seq<Option<nat>>>>, l: Loc)
  {
    l.obj in tm && l.key in tm[l.obj]
  }

  /** The Set `targetMap.get(obj).get(key)`, empty when there is none. */
  function MembersOf(tm: map<nat, map<Key, seq<Option<nat>>>>, l: Loc): seq<Option<nat>>
  {
    if Has(tm, l) then tm[l.obj][l.key] else []
  }

  predicate InRange(ms: seq<Option<nat>>, n: nat)
  {
    forall i | 0 <= i < |ms| :: ms[i].Some? ==> ms[i].value < n
  }

  /** Every access of every effect's function is through a proxy, and every effect named exists. */
  ghost predicate Ready(s: EState)
  {
    && ValidHeap(s.heap)
    && (forall i, j | 0 <= i < |s.bodies| && 0 <= j < |s.bodies[i]| :: IsProxy(s.heap, s.bodies[i][j].obj))
    && (s.activeEffect.Some? ==> s.activeEffect.value < |s.bodies|)
    && (forall l: Loc | Has(s.targetMap, l) :: InRange(MembersOf(s.targetMap, l), |s.bodies|))
  }

  /** `targetMap` after `targetMap.get(obj).get(key).add(x)`, creating the Map and the Set as needed. */
  function AddTo(tm: map<nat, map<Key, seq<Option<nat>>>>, l: Loc, x: Option<nat>): map<nat, map<Key, seq<Option<nat>>>>
  {
    var depsMap := if l.obj in tm then tm[l.obj] else map[];
    var dep := if l.key in depsMap then depsMap[l.key] else [];
    tm[l.obj := depsMap[l.key := DepGraph.Added(dep, x)]]
  }

  lemma AddToFacts(tm: map<nat, map<Key, seq<Option<nat>>>>, l: Loc, x: Option<nat>)
    ensures Has(AddTo(tm, l, x), l) && x in MembersOf(AddTo(tm, l, x), l)
    ensures forall l': Loc ::
      MembersOf(AddTo(tm, l, x), l') == (if l' == l then DepGraph.Added(MembersOf(tm, l), x) else MembersOf(tm, l'))
    ensures forall l': Loc :: Has(tm, l') ==> Has(AddTo(tm, l, x), l')
  {
    var r := AddTo(tm, l, x);
    forall l': Loc ensures MembersOf(r, l') == (if l' == l then DepGraph.Added(MembersOf(tm, l), x) else MembersOf(tm, l')) {
      if l' != l && l'.obj == l.obj {
        assert l'.key != l.key;
      }
    }
  }

  /** `track(target, key)`: `dep.add(activeEffect)`, whatever `activeEffect` holds. */
  function TrackE(s: EState, l: Loc): (r: EState)
    ensures Has(r.targetMap, l) && s.activeEffect in MembersOf(r.targetMap, l)
    ensures forall l': Loc ::
      MembersOf(r.targetMap, l') == (if l' == l then DepGraph.Added(MembersOf(s.targetMap, l), s.activeEffect) else MembersOf(s.targetMap, l'))
    ensures forall l': Loc :: Has(s.targetMap, l') ==> Has(r.targetMap, l')
    ensures r == s.(targetMap := r.targetMap)
    ensures Ready(s) ==> Ready(r)
  {
    AddToFacts(s.targetMap, l, s.activeEffect);
    var r := s.(targetMap := AddTo(s.targetMap, l, s.activeEffect));
    assert Ready(s) ==> Ready(r) by {
      if Ready(s) {
        forall l': Loc | Has(r.targetMap, l') ensures InRange(MembersOf(r.targetMap, l'), |r.bodies|) {
          if l' != l {
            assert Has(s.targetMap, l');
          } else if Has(s.targetMap, l) {
            assert InRange(MembersOf(s.targetMap, l), |s.bodies|);
          }
        }
      }
    }
    r
  }

  /** A proxy whose target is a plain object. */
  predicate OverPlain(heap: seq<Entity>, p: nat)
  {
    IsProxy(heap, p) && heap[p].target < |heap| && heap[heap[p].target].Plain?
  }

  /** `Reflect.set` on a plain object keeps the state ready. */
  lemma WriteReady(s: EState, t: nat, key: Key, v: Value)
    requires Ready(s) && t < |s.heap| && s.heap[t].Plain? && ValueIn(s.heap, v)
    ensures Ready(s.(heap := s.heap[t := Plain(s.heap[t].fields[key := v])]))
  {
    var h := s.heap[t := Plain(s.heap[t].fields[key := v])];
    forall i | 0 <= i < |h| ensures EntityOk(h, i) {
      assert EntityOk(s.heap, i);
    }
    forall i, j | 0 <= i < |s.bodies| && 0 <= j < |s.bodies[i]| ensures IsProxy(h, s.bodies[i][j].obj) {
      assert IsProxy(s.heap, s.bodies[i][j].obj);
    }
  }

  /**
   * The `get` trap of proxy `p`: `Reflect.get` on the target (through the
   * target's own trap when it is a proxy), then `track(target, key)` unless
   * the proxy is readonly. The value is returned as read.
   */
  function GetE(s: EState, p: nat, key: Key): (r: Got)
    requires Ready(s) && IsProxy(s.heap, p)
    ensures Ready(r.state) && r.state == s.(targetMap := r.state.targetMap)
    ensures forall l: Loc :: s.activeEffect in MembersOf(s.targetMap, l) ==> MembersOf(r.state.targetMap, l) == MembersOf(s.targetMap, l)
    ensures forall l: Loc :: Has(s.targetMap, l) ==> Has(r.state.targetMap, l)
    decreases p
  {
    var t := s.heap[p].target;
    assert EntityOk(s.heap, p);
    var inner := if s.heap[t].Plain? then Got(FieldOf(s.heap[t].fields, key), s) else GetE(s, t, key);
    if s.heap[p].mode.isReadonly then inner
    else
      TrackKeeps(inner.state, Loc(t, key));
      Got(inner.value, TrackE(inner.state, Loc(t, key)))
  }

  /** A `track` leaves alone every Set that already holds `activeEffect`. */
  lemma TrackKeeps(s: EState, l: Loc)
    ensures forall l': Loc :: s.activeEffect in MembersOf(s.targetMap, l') ==> MembersOf(TrackE(s, l).targetMap, l') == MembersOf(s.targetMap, l')
  {
    forall l': Loc | s.activeEffect in MembersOf(s.targetMap, l')
      ensures MembersOf(TrackE(s, l).targetMap, l') == MembersOf(s.targetMap, l')
    {
      if l' == l {
        assert DepGraph.Added(MembersOf(s.targetMap, l), s.activeEffect) == MembersOf(s.targetMap, l);
      }
    }
  }

  /** The reads of an effect's function, in order. */
  function RunReads(s: EState, body: seq<Loc>): (r: EState)
    requires Ready(s) && forall j | 0 <= j < |body| :: IsProxy(s.heap, body[j].obj)
    ensures Ready(r) && r == s.(targetMap := r.targetMap)
    ensures forall l: Loc :: s.activeEffect in MembersOf(s.targetMap, l) ==> MembersOf(r.targetMap, l) == MembersOf(s.targetMap, l)
    ensures forall l: Loc :: Has(s.targetMap, l) ==> Has(r.targetMap, l)
  {
    if body == [] then s
    else
      var last := body[|body| - 1];
      GetE(RunReads(s, body[..|body| - 1]), last.obj, last.key).state
  }

  /** `effect.run()`: `activeEffect = this`, never reset, then the function. */
  function RunE(s: EState, e: nat): (r: EState)
    requires Ready(s) && e < |s.bodies|
    ensures Ready(r) && r.heap == s.heap && r.bodies == s.bodies
    ensures r.activeEffect == Some(e) && r.runs == s.runs + [e]
    ensures forall l: Loc :: Some(e) in MembersOf(s.targetMap, l) ==> MembersOf(r.targetMap, l) == MembersOf(s.targetMap, l)
  {
    RunReads(s.(activeEffect := Some(e), runs := s.runs + [e]), s.bodies[e])
  }

  /** The loop of `trigger` over the members: `undefined.run()` throws. */
  function NotifyE(s: EState, ms: seq<Option<nat>>): (r: Outcome)
    requires Ready(s) && InRange(ms, |s.bodies|)
    ensures Ready(r.state) && r.state.heap == s.heap && r.state.bodies == s.bodies
    decreases |ms|
  {
    if ms == [] then Outcome(s, true)
    else match ms[0]
      case None => Outcome(s, false)
      case Some(e) => NotifyE(RunE(s, e), ms[1..])
  }

  /** `trigger(target, key)`: throws unless both the Map and the Set exist. */
  function TriggerE(s: EState, l: Loc): (r: Outcome)
    requires Ready(s)
    ensures Ready(r.state) && r.state.heap == s.heap && r.state.bodies == s.bodies
  {
    if !Has(s.targetMap, l) then Outcome(s, false)
    else NotifyE(s, MembersOf(s.targetMap, l))
  }

  /**
   * The `set` trap of proxy `p`: a readonly proxy returns true and does
   * nothing; a mutable one writes through to its target (through the
   * target's trap when it is a proxy), then triggers `(target, key)`.
   */
  function SetE(s: EState, p: nat, key: Key, v: Value): (r: Outcome)
    requires Ready(s) && IsProxy(s.heap, p) && ValueIn(s.heap, v)
    ensures Ready(r.state) && |r.state.heap| == |s.heap| && r.state.bodies == s.bodies
    ensures forall i | 0 <= i < |s.heap| && s.heap[i].Wrapper? :: r.state.heap[i] == s.heap[i]
    ensures forall i | 0 <= i < |s.heap| :: r.state.heap[i].Plain? == s.heap[i].Plain?
    decreases p
  {
    var t := s.heap[p].target;
    assert EntityOk(s.heap, p);
    if s.heap[p].mode.isReadonly then Outcome(s, true)
    else
      var inner :=
        if s.heap[t].Plain? then
          WriteReady(s, t, key, v);
          Outcome(s.(heap := s.heap[t := Plain(s.heap[t].fields[key := v])]), true)
        else SetE(s, t, key, v);
      if !inner.ok then inner else TriggerE(inner.state, Loc(t, key))
  }

  /** `effect(fn)`: a new effect, run at once; nothing is returned. */
  function EffectE(s: EState, body: seq<Loc>): (r: EState)
    requires Ready(s) && forall j | 0 <= j < |body| :: IsProxy(s.heap, body[j].obj)
    ensures Ready(r) && r.heap == s.heap && r.bodies == s.bodies + [body]
    ensures r.activeEffect == Some(|s.bodies|) && r.runs == s.runs + [|s.bodies|]
  {
    var s1 := s.(bodies := s.bodies + [body]);
    assert Ready(s1) by {
      forall l: Loc | Has(s1.targetMap, l) ensures InRange(MembersOf(s1.targetMap, l), |s1.bodies|) {
        assert InRange(MembersOf(s.targetMap, l), |s.bodies|);
      }
    }
    RunE(s1, |s.bodies|)
  }

  /** The effects a list of members names, when none is `undefined`. */
  function EffectsOf(ms: seq<Option<nat>>): seq<nat>
    requires forall i | 0 <= i < |ms| :: ms[i].Some?
  {
    if ms == [] then [] else [ms[0].value] + EffectsOf(ms[1..])
  }

  /** With no `undefined` member, a trigger runs every member once, in insertion order, and returns. */
  lemma {:induction false} NotifyRunsAll(s: EState, ms: seq<Option<nat>>)
    requires Ready(s) && InRange(ms, |s.bodies|)
    requires forall i | 0 <= i < |ms| :: ms[i].Some?
    ensures NotifyE(s, ms).ok && NotifyE(s, ms).state.runs == s.runs + EffectsOf(ms)
    decreases |ms|
  {
    if ms != [] {
      var e := ms[0].value;
      var s1 := RunE(s, e);
      assert InRange(ms[1..], |s1.bodies|) by {
        forall j | 0 <= j < |ms[1..]| ensures ms[1..][j].Some? ==> ms[1..][j].value < |s1.bodies| {
          assert ms[1..][j] == ms[j + 1];
        }
      }
      NotifyRunsAll(s1, ms[1..]);
      assert NotifyE(s, ms) == NotifyE(s1, ms[1..]);
      assert EffectsOf(ms) == [e] + EffectsOf(ms[1..]);
      assert s1.runs + EffectsOf(ms[1..]) == s.runs + ([e] + EffectsOf(ms[1..]));
    }
  }

  /** The members before the first `undefined` run; then the trigger throws. */
  lemma {:induction false} NotifyStopsAtUndefined(s: EState, ms: seq<Option<nat>>, i: nat)
    requires Ready(s) && InRange(ms, |s.bodies|)
    requires i < |ms| && ms[i] == None && forall j | 0 <= j < i :: ms[j].Some?
    ensures !NotifyE(s, ms).ok && NotifyE(s, ms).state.runs == s.runs + EffectsOf(ms[..i])
    decreases i
  {
    if i > 0 {
      var e := ms[0].value;
      var s1 := RunE(s, e);
      InRangeTail(ms, |s.bodies|);
      EffectsOfPrefix(ms, i);
      NotifyStopsAtUndefined(s1, ms[1..], i - 1);
      assert NotifyE(s, ms) == NotifyE(s1, ms[1..]);
      assert s1.runs + EffectsOf(ms[1..][..i - 1]) == s.runs + ([e] + EffectsOf(ms[1..][..i - 1]));
    } else {
      assert ms[..0] == [];
    }
  }

  lemma InRangeTail(ms: seq<Option<nat>>, n: nat)
    requires InRange(ms, n) && ms != []
    ensures InRange(ms[1..], n)
  {
    forall j | 0 <= j < |ms[1..]| ensures ms[1..][j].Some? ==> ms[1..][j].value < n {
      assert ms[1..][j] == ms[j + 1];
    }
  }

  /** The effects of `ms[..i]` are the first member's, then those of the tail's prefix. */
  lemma EffectsOfPrefix(ms: seq<Option<nat>>, i: nat)
    requires 0 < i <= |ms| && forall j | 0 <= j < i :: ms[j].Some?
    ensures forall j | 0 <= j < i - 1 :: ms[1..][j].Some?
    ensures EffectsOf(ms[..i]) == [ms[0].value] + EffectsOf(ms[1..][..i - 1])
  {
    assert forall j | 0 <= j < i - 1 :: ms[1..][j] == ms[j + 1];
    assert ms[..i][1..] == ms[1..][..i - 1];
  }

  /** A read outside every effect subscribes the effect that ran last. */
  lemma OutsideReadSubscribesLast(s: EState, e: nat, p: nat, key: Key)
    requires Ready(s) && e < |s.bodies| && IsProxy(s.heap, p)
    requires OverPlain(s.heap, p) && !s.heap[p].mode.isReadonly
    ensures Some(e) in MembersOf(GetE(RunE(s, e), p, key).state.targetMap, Loc(s.heap[p].target, key))
  {
  }

  /** A readonly proxy over a plain object reads without tracking. */
  lemma ReadonlyReadUntracked(s: EState, p: nat, key: Key)
    requires Ready(s) && IsProxy(s.heap, p)
    requires OverPlain(s.heap, p) && s.heap[p].mode.isReadonly
    ensures GetE(s, p, key) == Got(FieldOf(s.heap[s.heap[p].target].fields, key), s)
  {
  }

  /**
   * A write through a mutable proxy over a plain object whose field is
   * tracked by effects only: it is stored, every subscriber re-runs once in
   * order, and a later read returns it.
   */
  lemma WriteReruns(s: EState, p: nat, key: Key, v: Value)
    requires Ready(s) && IsProxy(s.heap, p) && ValueIn(s.heap, v)
    requires OverPlain(s.heap, p) && !s.heap[p].mode.isReadonly
    requires var l := Loc(s.heap[p].target, key);
      Has(s.targetMap, l) && forall i | 0 <= i < |MembersOf(s.targetMap, l)| :: MembersOf(s.targetMap, l)[i].Some?
    ensures var r := SetE(s, p, key, v);
      && r.ok
      && r.state.runs == s.runs + EffectsOf(MembersOf(s.targetMap, Loc(s.heap[p].target, key)))
      && GetE(r.state, p, key).value == v
  {
    var t := s.heap[p].target;
    assert EntityOk(s.heap, p);
    var h := s.heap[t := Plain(s.heap[t].fields[key := v])];
    var s1 := s.(heap := h);
    assert SetE(s, p, key, v) == TriggerE(s1, Loc(t, key));
    NotifyRunsAll(s1, MembersOf(s.targetMap, Loc(t, key)));
  }

  /** Without a `track` of `(target, key)` first, the write happens and then `trigger` throws. */
  lemma UntrackedWriteThrows(s: EState, p: nat, key: Key, v: Value)
    requires Ready(s) && IsProxy(s.heap, p) && ValueIn(s.heap, v)
    requires OverPlain(s.heap, p) && !s.heap[p].mode.isReadonly
    requires !Has(s.targetMap, Loc(s.heap[p].target, key))
    ensures var r := SetE(s, p, key, v);
      && !r.ok
      && r.state.heap[s.heap[p].target] == Plain(s.heap[s.heap[p].target].fields[key := v])
      && r.state.runs == s.runs
  {
    assert EntityOk(s.heap, s.heap[p].target);
  }

  /** A fresh runtime: objects, and no effect or `track` yet. */
  predicate Fresh(s: EState)
  {
    s.targetMap == map[] && s.bodies == [] && s.activeEffect == None && s.runs == []
  }

  /**
   * Two effects, the first reading `p.key`, the second reading nothing
   * reactive; then `p.key++` outside every effect: its read subscribes the
   * second effect, which ran last, so its write re-runs both, first then
   * second.
   */
  lemma TwoEffects(s0: EState, p: nat, key: Key, v: Value)
    requires Ready(s0) && Fresh(s0) && OverPlain(s0.heap, p) && !s0.heap[p].mode.isReadonly && ValueIn(s0.heap, v)
    ensures var s1 := EffectE(s0, [Loc(p, key)]);
      && var s2 := EffectE(s1, []);
      && var s3 := GetE(s2, p, key).state;
      && var o := SetE(s3, p, key, v);
      && o.ok && o.state.runs == [0, 1, 0, 1]
  {
    var s1 := FirstEffect(s0, p, key);
    var s3 := SecondEffectThenRead(s1, p, key);
    WriteRerunsBoth(s3, p, key, v);
  }

  /** The write of `TwoEffects`: both subscribers re-run. */
  lemma WriteRerunsBoth(s3: EState, p: nat, key: Key, v: Value)
    requires Ready(s3) && OverPlain(s3.heap, p) && !s3.heap[p].mode.isReadonly && ValueIn(s3.heap, v)
    requires s3.runs == [0, 1]
    requires var l := Loc(s3.heap[p].target, key); Has(s3.targetMap, l) && MembersOf(s3.targetMap, l) == [Some(0), Some(1)]
    ensures SetE(s3, p, key, v).ok && SetE(s3, p, key, v).state.runs == [0, 1, 0, 1]
  {
    var ms := MembersOf(s3.targetMap, Loc(s3.heap[p].target, key));
    EffectsOfTwo(s3.runs, ms);
    WriteReruns(s3, p, key, v);
  }

  /** After runs `[0, 1]`, the members `[0, 1]` re-run: `[0, 1, 0, 1]`. */
  lemma EffectsOfTwo(runs: seq<nat>, ms: seq<Option<nat>>)
    requires runs == [0, 1] && ms == [Some(0), Some(1)]
    ensures forall i | 0 <= i < |ms| :: ms[i].Some?
    ensures runs + EffectsOf(ms) == [0, 1, 0, 1]
  {
    EffectsOfPair(0, 1);
  }

  /** Two present members run in order. */
  lemma EffectsOfPair(a: nat, b: nat)
    ensures EffectsOf([Some(a), Some(b)]) == [a, b]
  {
    var ms: seq<Option<nat>> := [Some(a), Some(b)];
    var tail := ms[1..];
    assert tail == [Some(b)];
    assert tail[1..] == [];
    assert EffectsOf(tail) == [b];
    assert EffectsOf(ms) == [a] + EffectsOf(tail);
  }

  /** The first effect of `TwoEffects` runs once and subscribes itself. */
  lemma FirstEffect(s0: EState, p: nat, key: Key) returns (s1: EState)
    requires Ready(s0) && Fresh(s0) && OverPlain(s0.heap, p) && !s0.heap[p].mode.isReadonly
    ensures s1 == EffectE(s0, [Loc(p, key)])
    ensures Ready(s1) && s1.heap == s0.heap && s1.runs == [0] && s1.bodies == [[Loc(p, key)]]
    ensures MembersOf(s1.targetMap, Loc(s0.heap[p].target, key)) == [Some(0)]
  {
    var body := [Loc(p, key)];
    s1 := EffectE(s0, body);
    var b0 := s0.(bodies := [body]);
    assert s0.bodies + [body] == [body];
    var r0 := b0.(activeEffect := Some(0), runs := [0]);
    assert s1 == RunE(b0, 0);
    assert b0.runs + [0] == [0];
    assert s1 == RunReads(r0, body);
    assert body[..0] == [];
    assert RunReads(r0, body[..0]) == r0;
    assert s1 == GetE(r0, p, key).state;
    assert GetE(r0, p, key).state == TrackE(r0, Loc(s0.heap[p].target, key));
  }

  /** The second effect of `TwoEffects` runs once; the read after it subscribes it. */
  lemma SecondEffectThenRead(s1: EState, p: nat, key: Key) returns (s3: EState)
    requires Ready(s1) && OverPlain(s1.heap, p) && !s1.heap[p].mode.isReadonly
    requires s1.runs == [0] && |s1.bodies| == 1
    requires MembersOf(s1.targetMap, Loc(s1.heap[p].target, key)) == [Some(0)]
    ensures s3 == GetE(EffectE(s1, []), p, key).state
    ensures Ready(s3) && s3.heap == s1.heap && s3.runs == [0, 1]
    ensures var l := Loc(s1.heap[p].target, key); Has(s3.targetMap, l) && MembersOf(s3.targetMap, l) == [Some(0), Some(1)]
  {
    var l := Loc(s1.heap[p].target, key);
    var s2 := EffectE(s1, []);
    var b1 := s1.(bodies := s1.bodies + [[]]);
    assert s2 == RunE(b1, 1) == RunReads(b1.(activeEffect := Some(1), runs := [0, 1]), []);
    s3 := GetE(s2, p, key).state;
    assert s3 == TrackE(s2, l);
  }

  /** The early runtime: the global `targetMap`, `activeEffect` and the objects, updated in place. */
  class EarlyRuntime {
    var heap: seq<Entity>
    var targetMap: map<nat, map<Key, seq<Option<nat>>>>
    var bodies: seq<seq<Loc>>
    var activeEffect: Option<nat>
    var runs: seq<nat>

    function S(): EState
      reads this
    {
      EState(heap, targetMap, bodies, activeEffect, runs)
    }

    constructor ()
      ensures S() == EState([], map[], [], None, []) && Ready(S())
    {
      heap := [];
      targetMap := map[];
      bodies := [];
      activeEffect := None;
      runs := [];
    }

    /** An object literal of user code. */
    method NewObject(fields: map<Key, Value>) returns (r: Value)
      requires Ready(S()) && forall k | k in fields :: ValueIn(heap, fields[k])
      modifies this
      ensures Ready(S()) && r == Obj(old(|heap|))
      ensures S() == old(S()).(heap := old(heap) + [Plain(fields)])
    {
      r := Obj(|heap|);
      var h := heap + [Plain(fields)];
      forall i | 0 <= i < |h| ensures EntityOk(h, i) {
        if i < |heap| { assert EntityOk(heap, i); assert h[i] == heap[i]; }
      }
      forall i, j | 0 <= i < |bodies| && 0 <= j < |bodies[i]| ensures IsProxy(h, bodies[i][j].obj) {
        assert IsProxy(heap, bodies[i][j].obj);
      }
      heap := h;
    }

    /** `new Proxy(raw, handlers)`: a new proxy every call; a non-object throws. */
    method NewProxy(raw: Value, mode: Mode) returns (p: Result<Value>)
      requires Ready(S()) && ValueIn(heap, raw)
      modifies this
      ensures Ready(S())
      ensures !IsObject(raw) ==> p == TypeError && S() == old(S())
      ensures IsObject(raw) ==>
        p == Ok(Obj(old(|heap|))) && p.value != raw && S() == old(S()).(heap := old(heap) + [Wrapper(mode, raw.ref)])
    {
      if !IsObject(raw) {
        return TypeError;
      }
      ExtendHeap(heap, [Wrapper(mode, raw.ref)]);
      var h := heap + [Wrapper(mode, raw.ref)];
      forall i, j | 0 <= i < |bodies| && 0 <= j < |bodies[i]| ensures IsProxy(h, bodies[i][j].obj) {
        assert IsProxy(heap, bodies[i][j].obj);
      }
      p := Ok(Obj(|heap|));
      heap := h;
    }

    /** `reactive(raw)`. */
    method Reactive(raw: Value) returns (p: Result<Value>)
      requires Ready(S()) && ValueIn(heap, raw)
      modifies this
      ensures Ready(S())
      ensures !IsObject(raw) ==> p == TypeError && S() == old(S())
      ensures IsObject(raw) ==> p == Ok(Obj(old(|heap|))) && S() == old(S()).(heap := old(heap) + [Wrapper(MUTABLE, raw.ref)])
    {
      p := NewProxy(raw, MUTABLE);
    }

    /** `readonly(raw)`. */
    method Readonly(raw: Value) returns (p: Result<Value>)
      requires Ready(S()) && ValueIn(heap, raw)
      modifies this
      ensures Ready(S())
      ensures !IsObject(raw) ==> p == TypeError && S() == old(S())
      ensures IsObject(raw) ==> p == Ok(Obj(old(|heap|))) && S() == old(S()).(heap := old(heap) + [Wrapper(READONLY, raw.ref)])
    {
      p := NewProxy(raw, READONLY);
    }

    method Track(l: Loc)
      requires Ready(S())
      modifies this
      ensures S() == TrackE(old(S()), l)
    {
      var depsMap := if l.obj in targetMap then targetMap[l.obj] else map[];
      var dep := if l.key in depsMap then depsMap[l.key] else [];
      targetMap := targetMap[l.obj := depsMap[l.key := DepGraph.Added(dep, activeEffect)]];
    }

    /** The `get` trap of proxy `p`. */
    method Get(p: nat, key: Key) returns (v: Value)
      requires Ready(S()) && IsProxy(heap, p)
      modifies this
      ensures v == GetE(old(S()), p, key).value && S() == GetE(old(S()), p, key).state
      decreases p
    {
      var t := heap[p].target;
      assert EntityOk(heap, p);
      var res;
      if heap[t].Plain? {
        res := FieldOf(heap[t].fields, key);
      } else {
        res := Get(t, key);
      }
      if !heap[p].mode.isReadonly {
        Track(Loc(t, key));
      }
      v := res;
    }

    /** `effect.run()`. */
    method Run(e: nat)
      requires Ready(S()) && e < |bodies|
      modifies this
      ensures S() == RunE(old(S()), e)
    {
      activeEffect := Some(e);
      runs := runs + [e];
      ghost var s1 := S();
      var body := bodies[e];
      var i := 0;
      while i < |body|
        invariant 0 <= i <= |body|
        invariant S() == RunReads(s1, body[..i])
      {
        assert body[..i + 1][..i] == body[..i];
        var _ := Get(body[i].obj, body[i].key);
        i := i + 1;
      }
      assert body[..i] == body;
    }

    /** `trigger(target, key)`: runs the members of the live Set in order; `ok` is false where it throws. */
    method Trigger(l: Loc) returns (ok: bool)
      requires Ready(S())
      modifies this
      ensures Outcome(S(), ok) == TriggerE(old(S()), l)
    {
      if !(l.obj in targetMap && l.key in targetMap[l.obj]) {
        return false;
      }
      ghost var ms := MembersOf(targetMap, l);
      ghost var s0 := S();
      var i := 0;
      while i < |targetMap[l.obj][l.key]|
        invariant 0 <= i <= |ms| && Ready(S()) && Has(targetMap, l)
        invariant MembersOf(targetMap, l) == ms && InRange(ms, |bodies|)
        invariant NotifyE(S(), ms[i..]) == NotifyE(s0, ms)
      {
        assert ms[i..] == [ms[i]] + ms[i + 1..];
        var m := targetMap[l.obj][l.key][i];
        if m.None? {
          return false;
        }
        assert m in ms;
        Run(m.value);
        i := i + 1;
      }
      ok := true;
    }

    /** The `set` trap of proxy `p`; `ok` is false where it throws. */
    method Set(p: nat, key: Key, v: Value) returns (ok: bool)
      requires Ready(S()) && IsProxy(heap, p) && ValueIn(heap, v)
      modifies this
      ensures Outcome(S(), ok) == SetE(old(S()), p, key, v)
      decreases p
    {
      var t := heap[p].target;
      assert EntityOk(heap, p);
      if heap[p].mode.isReadonly {
        return true;
      }
      if heap[t].Plain? {
        WriteReady(S(), t, key, v);
        heap := heap[t := Plain(heap[t].fields[key := v])];
        ok := true;
      } else {
        ok := Set(t, key, v);
      }
      if ok {
        ok := Trigger(Loc(t, key));
      }
    }

    /** `effect(fn)`. */
    method Effect(body: seq<Loc>)
      requires Ready(S()) && forall j | 0 <= j < |body| :: IsProxy(heap, body[j].obj)
      modifies this
      ensures S() == EffectE(old(S()), body)
    {
      ghost var s0 := S();
      bodies := bodies + [body];
      assert Ready(S()) by {
        forall l: Loc | Has(targetMap, l) ensures InRange(MembersOf(targetMap, l), |bodies|) {
          assert InRange(MembersOf(s0.targetMap, l), |s0.bodies|);
        }
      }
      Run(|bodies| - 1);
    }
  }
}
