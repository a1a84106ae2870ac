/**
 * The effect runtime of packages/reactivity/src/effect.ts (identical copy in
 * lib/x-mini-vue.cjs.js): the globals `targetMap`, `activeEffect` and
 * `shouldTrack`, the `ReactiveEffect` objects and the calls into user code
 * (an effect's function, its scheduler, its `onStop`).
 *
 * `State` and the functions on it say what each operation does; the class
 * `Tracker` holds the same state in mutable fields and its methods are
 * proved to do exactly that.
 */
module Effect {
  import opened Values
  import opened Wrappers
  import opened DepGraph

  /** A call into user code, in the order the runtime makes them. */
  datatype Call = RanFn(effect: EffectId) | CalledScheduler(effect: EffectId) | CalledOnStop(effect: EffectId)

  datatype State = State(g: Graph, activeEffect: Option<EffectId>, shouldTrack: bool, calls: seq<Call>)

  /** `isTracking()`: `shouldTrack && activeEffect !== undefined`. */
  predicate IsTracking(s: State)
  {
    s.shouldTrack && s.activeEffect.Some?
  }

  predicate WellFormed(s: State)
  {
    s.activeEffect.Some? ==> s.activeEffect.value < |s.g.effects|
  }

  /** The graph is consistent, and only an active effect collects dependencies. */
  ghost predicate Valid(s: State)
  {
    Consistent(s.g) && WellFormed(s) && (IsTracking(s) ==> s.g.effects[s.activeEffect.value].active)
  }

  /**
   * `track` (for a field Set) or `trackRefValue` (for a ref's Set): a no-op
   * unless tracking; otherwise `trackEffects` subscribes the active effect.
   */
  function TrackS(s: State, d: Dep): (r: State)
    requires WellFormed(s) && (d.RefDep? ==> d.ref < |s.g.refDeps|)
    ensures !IsTracking(s) ==> r == s
    ensures IsTracking(s) ==> HasDep(r.g, d) && s.activeEffect.value in Subs(r.g, d)
    ensures forall d' | d' != d :: Subs(r.g, d') == Subs(s.g, d') && (HasDep(r.g, d') <==> HasDep(s.g, d'))
  {
    if IsTracking(s) then
      SubscribeToEffect(s.g, s.activeEffect.value, d);
      s.(g := SubscribeTo(s.g, s.activeEffect.value, d))
    else s
  }

  /** The reads of a function, in order, each a `TrackS`. */
  function TrackReadsS(s: State, ds: seq<Dep>): (r: State)
    requires WellFormed(s) && RefReadsExist(s.g, ds)
    ensures WellFormed(r) && SameEffectsButDeps(s.g, r.g) && |r.g.refDeps| == |s.g.refDeps|
    ensures r.activeEffect == s.activeEffect && r.shouldTrack == s.shouldTrack && r.calls == s.calls
  {
    if IsTracking(s) then s.(g := SubscribeAll(s.g, s.activeEffect.value, ds)) else s
  }

  /**
   * `ReactiveEffect.run`. A stopped effect just calls its function, whose
   * reads then track for whatever effect is active. An active one sets
   * `shouldTrack` and `activeEffect`, calls the function, and resets
   * `shouldTrack` to false; `activeEffect` is left pointing at it and the
   * old `deps` are never cleared.
   */
  function RunS(s: State, e: EffectId): (r: State)
    requires WellFormed(s) && e < |s.g.effects| && RefReadsExist(s.g, s.g.effects[e].body)
    ensures WellFormed(r) && SameEffectsButDeps(s.g, r.g) && |r.g.refDeps| == |s.g.refDeps|
    ensures r.calls == s.calls + [RanFn(e)]
  {
    var body := s.g.effects[e].body;
    var s1 := s.(calls := s.calls + [RanFn(e)]);
    if s.g.effects[e].active then
      TrackReadsS(s1.(shouldTrack := true, activeEffect := Some(e)), body).(shouldTrack := false)
    else
      TrackReadsS(s1, body)
  }

  /** `stop()`: the first call cleans up, calls `onStop` if given and deactivates; later calls do nothing. */
  function StopS(s: State, e: EffectId): State
    requires e < |s.g.effects| && RefReadsExist(s.g, s.g.effects[e].deps)
  {
    if s.g.effects[e].active then
      s.(g := StopGraph(s.g, e),
         calls := s.calls + (if s.g.effects[e].hasOnStop then [CalledOnStop(e)] else []))
    else s
  }

  /** The call `triggerEffects` makes for subscriber `x`: its scheduler if it has one, else `run`. */
  function Notification(g: Graph, x: EffectId): Call
    requires x < |g.effects|
  {
    if g.effects[x].hasScheduler then CalledScheduler(x) else RanFn(x)
  }

  function Notifications(g: Graph, xs: seq<EffectId>): (r: seq<Call>)
    requires forall i | 0 <= i < |xs| :: xs[i] < |g.effects|
    ensures |r| == |xs| && forall i | 0 <= i < |xs| :: r[i] == Notification(g, xs[i])
  {
    if xs == [] then [] else [Notification(g, xs[0])] + Notifications(g, xs[1..])
  }

  /** Every effect in `xs` can be run in `s`. */
  predicate Runnable(s: State, xs: seq<EffectId>)
  {
    forall i | 0 <= i < |xs| :: xs[i] < |s.g.effects| && RefReadsExist(s.g, s.g.effects[xs[i]].body)
  }

  function NotifyS(s: State, x: EffectId): (r: State)
    requires WellFormed(s) && x < |s.g.effects| && RefReadsExist(s.g, s.g.effects[x].body)
    ensures WellFormed(r) && SameEffectsButDeps(s.g, r.g) && |r.g.refDeps| == |s.g.refDeps|
    ensures r.calls == s.calls + [Notification(s.g, x)]
  {
    if s.g.effects[x].hasScheduler then s.(calls := s.calls + [CalledScheduler(x)]) else RunS(s, x)
  }

  /** `triggerEffects`: notify the subscribers one by one, in the Set's insertion order. */
  function NotifyAllS(s: State, xs: seq<EffectId>): (r: State)
    requires WellFormed(s) && Runnable(s, xs)
    ensures WellFormed(r) && SameEffectsButDeps(s.g, r.g) && |r.g.refDeps| == |s.g.refDeps|
    decreases |xs|
  {
    if xs == [] then s
    else
      var s1 := NotifyS(s, xs[0]);
      NotifyAllS(s1, xs[1..])
  }

  /** `effect(fn, options)`: a new active effect with no deps, run once at once. */
  function EffectS(s: State, body: seq<Dep>, result: Value, hasScheduler: bool, hasOnStop: bool): State
    requires WellFormed(s) && RefReadsExist(s.g, body)
  {
    var e := |s.g.effects|;
    var s1 := s.(g := s.g.(effects := s.g.effects + [EffectRec(body, result, hasScheduler, hasOnStop, true, [])]));
    RunS(s1, e)
  }

  /** `trigger(target, key)` for Set `d`: `triggerEffects` on its current members. */
  function TriggerS(s: State, d: Dep): (r: State)
    requires WellFormed(s) && Runnable(s, Subs(s.g, d))
    ensures WellFormed(r)
  {
    NotifyAllS(s, Subs(s.g, d))
  }

  /** Several `trigger`s in a row. */
  ghost function TriggersS(s: State, ds: seq<Dep>): (r: State)
    requires Valid(s)
    ensures Valid(r)
    ensures forall d | HasDep(s.g, d) :: HasDep(r.g, d)
    decreases |ds|
  {
    if ds == [] then s
    else
      TriggerValid(s, ds[0]);
      TriggersS(TriggerS(s, ds[0]), ds[1..])
  }

  /** The members of a consistent graph's Sets are active and can be run. */
  lemma MembersRunnable(g: Graph, d: Dep)
    requires Consistent(g)
    ensures forall x | x in Subs(g, d) :: x < |g.effects| && g.effects[x].active && RefReadsExist(g, g.effects[x].body)
  {
    forall x | x in Subs(g, d) ensures x < |g.effects| && g.effects[x].active && RefReadsExist(g, g.effects[x].body) {
      MemberHasDep(g, d, x);
    }
  }

  lemma TrackValid(s: State, d: Dep)
    requires Valid(s) && (d.RefDep? ==> d.ref < |s.g.refDeps|)
    ensures Valid(TrackS(s, d))
  {
    if IsTracking(s) {
      SubscribeToConsistent(s.g, s.activeEffect.value, d);
      SubscribeToEffect(s.g, s.activeEffect.value, d);
    }
  }

  /** Running any effect keeps the state valid. */
  lemma RunValid(s: State, e: EffectId)
    requires Valid(s) && e < |s.g.effects|
    ensures RefReadsExist(s.g, s.g.effects[e].body)
    ensures Valid(RunS(s, e))
  {
    var body := s.g.effects[e].body;
    if s.g.effects[e].active {
      SubscribeAllConsistent(s.g, e, body);
    } else if IsTracking(s) {
      SubscribeAllConsistent(s.g, s.activeEffect.value, body);
    }
  }

  /**
   * A run of an active effect leaves it subscribed to every Set its function
   * read, keeps every Set it was in before (stale deps are not cleaned), and
   * leaves `activeEffect` pointing at it with tracking switched off.
   */
  lemma RunActive(s: State, e: EffectId)
    requires Valid(s) && e < |s.g.effects| && s.g.effects[e].active
    ensures RefReadsExist(s.g, s.g.effects[e].body)
    ensures var r := RunS(s, e);
      && (forall d | d in s.g.effects[e].body :: HasDep(r.g, d) && e in Subs(r.g, d))
      && (forall d | d in s.g.effects[e].deps :: e in Subs(r.g, d))
      && r.activeEffect == Some(e) && !r.shouldTrack
  {
    var body := s.g.effects[e].body;
    SubscribeAllSubscribes(s.g, e, body);
    SubscribeAllKeepsDeps(s.g, e, body);
    SubscribeAllConsistent(s.g, e, body);
    var g' := SubscribeAll(s.g, e, body);
    forall d | d in s.g.effects[e].deps ensures e in Subs(g', d) {
      var i :| 0 <= i < |s.g.effects[e].deps| && s.g.effects[e].deps[i] == d;
      assert g'.effects[e].deps[i] == d;
    }
  }

  /** Outside of any run, a stopped effect's function subscribes nobody. */
  lemma RunStoppedOutside(s: State, e: EffectId)
    requires WellFormed(s) && e < |s.g.effects| && !s.g.effects[e].active && !IsTracking(s)
    requires RefReadsExist(s.g, s.g.effects[e].body)
    ensures RunS(s, e) == s.(calls := s.calls + [RanFn(e)])
  {
  }

  /**
   * `stop()` is idempotent: the first call removes the effect from every Set
   * and calls `onStop` once; a second call changes nothing.
   */
  lemma StopTwice(s: State, e: EffectId)
    requires Valid(s) && e < |s.g.effects|
    ensures RefReadsExist(s.g, s.g.effects[e].deps)
    ensures var s1 := StopS(s, e);
      && e < |s1.g.effects| && !s1.g.effects[e].active
      && RefReadsExist(s1.g, s1.g.effects[e].deps)
      && StopS(s1, e) == s1
      && (forall d :: e !in Subs(s1.g, d))
      && s1.calls == s.calls + (if s.g.effects[e].active && s.g.effects[e].hasOnStop then [CalledOnStop(e)] else [])
  {
    StopUnsubscribes(s.g, e);
    StopIdempotent(s.g, e);
    if !s.g.effects[e].active {
      forall d ensures e !in Subs(s.g, d) {
        if e in Subs(s.g, d) { MemberHasDep(s.g, d, e); }
      }
    }
  }

  /** Stopping an effect other than the one collecting keeps the state valid. */
  lemma StopValid(s: State, e: EffectId)
    requires Valid(s) && e < |s.g.effects|
    requires !(IsTracking(s) && s.activeEffect == Some(e))
    ensures RefReadsExist(s.g, s.g.effects[e].deps)
    ensures Valid(StopS(s, e))
  {
    StopUnsubscribes(s.g, e);
  }

  /** Notifying a member of Set `d` leaves `d`'s members, and the state's validity, as they were. */
  lemma NotifyKeepsSet(s: State, x: EffectId, d: Dep)
    requires Valid(s) && x in Subs(s.g, d)
    ensures x < |s.g.effects| && RefReadsExist(s.g, s.g.effects[x].body)
    ensures Valid(NotifyS(s, x)) && Subs(NotifyS(s, x).g, d) == Subs(s.g, d)
  {
    MembersRunnable(s.g, d);
    if !s.g.effects[x].hasScheduler {
      RunValid(s, x);
      SubscribeAllKeepsMemberSet(s.g, x, s.g.effects[x].body, d);
    }
  }

  lemma {:induction false} NotificationsSame(g: Graph, g': Graph, xs: seq<EffectId>)
    requires SameEffectsButDeps(g, g')
    requires forall i | 0 <= i < |xs| :: xs[i] < |g.effects|
    ensures Notifications(g', xs) == Notifications(g, xs)
    decreases |xs|
  {
    if xs != [] {
      NotificationsSame(g, g', xs[1..]);
    }
  }

  /** One step of `triggerEffects`: notify the first subscriber, then the rest. */
  lemma NotifyAllStep(s: State, xs: seq<EffectId>)
    requires WellFormed(s) && Runnable(s, xs) && xs != []
    ensures Runnable(NotifyS(s, xs[0]), xs[1..])
    ensures NotifyAllS(s, xs) == NotifyAllS(NotifyS(s, xs[0]), xs[1..])
  {
  }

  /** `triggerEffects` calls, for each subscriber in order, its scheduler or its `run`. */
  lemma {:induction false} NotifyAllCalls(s: State, xs: seq<EffectId>)
    requires WellFormed(s) && Runnable(s, xs)
    ensures NotifyAllS(s, xs).calls == s.calls + Notifications(s.g, xs)
    decreases |xs|
  {
    if xs != [] {
      NotifyAllStep(s, xs);
      var s1 := NotifyS(s, xs[0]);
      NotifyAllCalls(s1, xs[1..]);
      NotificationsSame(s.g, s1.g, xs[1..]);
      CallsStep(s.calls, Notification(s.g, xs[0]), Notifications(s.g, xs[1..]), Notifications(s.g, xs));
    }
  }

  lemma CallsStep(before: seq<Call>, first: Call, rest: seq<Call>, all: seq<Call>)
    requires all == [first] + rest
    ensures (before + [first]) + rest == before + all
  {
  }

  /**
   * A field read inside an effect's run, followed by `trigger` on that field
   * (the setter), re-runs the effect when it has no scheduler and calls its
   * scheduler when it has one.
   */
  lemma TrackedWriteReruns(s: State, e: EffectId, t: nat, k: Key)
    requires Valid(s) && e < |s.g.effects| && s.g.effects[e].active
    requires KeyDep(t, k) in s.g.effects[e].body
    ensures RefReadsExist(s.g, s.g.effects[e].body)
    ensures var s1 := RunS(s, e);
      && HasDep(s1.g, KeyDep(t, k))
      && Runnable(s1, Subs(s1.g, KeyDep(t, k)))
      && (if s.g.effects[e].hasScheduler then CalledScheduler(e) else RanFn(e))
           in NotifyAllS(s1, Subs(s1.g, KeyDep(t, k))).calls
  {
    RunActive(s, e);
    RunValid(s, e);
    var s1 := RunS(s, e);
    var d := KeyDep(t, k);
    MembersRunnable(s1.g, d);
    NotifyAllCalls(s1, Subs(s1.g, d));
    var i :| 0 <= i < |Subs(s1.g, d)| && Subs(s1.g, d)[i] == e;
    assert Notifications(s1.g, Subs(s1.g, d))[i] == Notification(s1.g, e);
    assert NotifyAllS(s1, Subs(s1.g, d)).calls[|s1.calls| + i] == Notification(s1.g, e);
  }

  /** `effect()` runs the function exactly once, at once, and subscribes the new effect to what it read. */
  lemma EffectRunsOnce(s: State, body: seq<Dep>, result: Value, hasScheduler: bool, hasOnStop: bool)
    requires Valid(s) && RefReadsExist(s.g, body)
    ensures var r := EffectS(s, body, result, hasScheduler, hasOnStop);
      && Valid(r)
      && r.calls == s.calls + [RanFn(|s.g.effects|)]
      && r.activeEffect == Some(|s.g.effects|)
      && (forall d | d in body :: |s.g.effects| in Subs(r.g, d))
  {
    var e := |s.g.effects|;
    var s1 := s.(g := s.g.(effects := s.g.effects + [EffectRec(body, result, hasScheduler, hasOnStop, true, [])]));
    AppendEffectConsistent(s.g, EffectRec(body, result, hasScheduler, hasOnStop, true, []));
    RunValid(s1, e);
    RunActive(s1, e);
  }

  lemma TrackReadsSnoc(s: State, ds: seq<Dep>, d: Dep)
    requires WellFormed(s) && RefReadsExist(s.g, ds + [d])
    ensures TrackReadsS(s, ds + [d]) == TrackS(TrackReadsS(s, ds), d)
  {
    assert (ds + [d])[..|ds|] == ds;
  }

  lemma TrackReadsValid(s: State, ds: seq<Dep>)
    requires Valid(s) && RefReadsExist(s.g, ds)
    ensures Valid(TrackReadsS(s, ds))
    ensures forall d | HasDep(s.g, d) :: HasDep(TrackReadsS(s, ds).g, d)
  {
    if IsTracking(s) {
      SubscribeAllConsistent(s.g, s.activeEffect.value, ds);
      forall d | HasDep(s.g, d) ensures HasDep(TrackReadsS(s, ds).g, d) {
        SubscribeAllKeepsHasDep(s.g, s.activeEffect.value, ds, d);
      }
    }
  }

  /** Notifying members of Set `d` one after the other keeps `d`, every existing Set and validity. */
  lemma {:induction false} NotifyAllValid(s: State, xs: seq<EffectId>, d: Dep)
    requires Valid(s) && forall i | 0 <= i < |xs| :: xs[i] in Subs(s.g, d)
    ensures Runnable(s, xs)
    ensures var r := NotifyAllS(s, xs);
      Valid(r) && Subs(r.g, d) == Subs(s.g, d) && forall d' | HasDep(s.g, d') :: HasDep(r.g, d')
    decreases |xs|
  {
    MembersRunnable(s.g, d);
    if xs != [] {
      NotifyKeepsSet(s, xs[0], d);
      var s1 := NotifyS(s, xs[0]);
      if !s.g.effects[xs[0]].hasScheduler {
        TrackReadsValid(s.(calls := s.calls + [RanFn(xs[0])], shouldTrack := true, activeEffect := Some(xs[0])), s.g.effects[xs[0]].body);
      }
      NotifyAllValid(s1, xs[1..], d);
    }
  }

  lemma TriggerValid(s: State, d: Dep)
    requires Valid(s)
    ensures Runnable(s, Subs(s.g, d))
    ensures Valid(TriggerS(s, d)) && forall d' | HasDep(s.g, d') :: HasDep(TriggerS(s, d).g, d')
  {
    NotifyAllValid(s, Subs(s.g, d), d);
  }

  lemma {:induction false} TriggersSnoc(s: State, ds: seq<Dep>, d: Dep)
    requires Valid(s)
    ensures Runnable(TriggersS(s, ds), Subs(TriggersS(s, ds).g, d))
    ensures TriggersS(s, ds + [d]) == TriggerS(TriggersS(s, ds), d)
    decreases |ds|
  {
    TriggerValid(TriggersS(s, ds), d);
    if ds == [] {
      assert [] + [d] == [d];
      TriggerValid(s, d);
    } else {
      TriggerValid(s, ds[0]);
      assert (ds + [d])[1..] == ds[1..] + [d];
      TriggersSnoc(TriggerS(s, ds[0]), ds[1..], d);
    }
  }

  class Tracker {
    var targetMap: map<nat, map<Key, seq<EffectId>>>
    var refDeps: seq<seq<EffectId>>
    var effects: seq<EffectRec>
    var activeEffect: Option<EffectId>
    var shouldTrack: bool
    var calls: seq<Call>

    function G(): Graph
      reads this
    {
      Graph(targetMap, refDeps, effects)
    }

    function S(): State
      reads this
    {
      State(G(), activeEffect, shouldTrack, calls)
    }

    /** Module load: empty `targetMap`, `activeEffect` and `shouldTrack` undefined. */
    constructor ()
      ensures S() == State(Graph(map[], [], []), None, false, [])
      ensures Valid(S())
    {
      EmptyConsistent();
      targetMap := map[];
      refDeps := [];
      effects := [];
      activeEffect := None;
      shouldTrack := false;
      calls := [];
    }

    /** `new Set()` for a new ref: its id in the arena of ref Sets. */
    method NewRefDep() returns (r: nat)
      requires Valid(S())
      modifies this
      ensures Valid(S()) && r == old(|refDeps|)
      ensures S() == old(S()).(g := old(G()).(refDeps := old(refDeps) + [[]]))
    {
      AppendRefDepConsistent(G());
      ghost var s0 := S();
      r := |refDeps|;
      refDeps := refDeps + [[]];
      assert S() == s0.(g := s0.g.(refDeps := s0.g.refDeps + [[]]));
    }

    /** Replace the members of an existing Set (a `Set.add`/`Set.delete` in place). */
    method SetDep(d: Dep, s: seq<EffectId>)
      requires HasDep(G(), d)
      modifies this
      ensures G() == SetSubs(old(G()), d, s)
      ensures activeEffect == old(activeEffect) && shouldTrack == old(shouldTrack) && calls == old(calls)
    {
      match d
      case KeyDep(t, k) =>
        targetMap := targetMap[t := targetMap[t][k := s]];
      case RefDep(r) =>
        refDeps := refDeps[r := s];
    }

    /** `trackEffects(dep)`: add the active effect, and the Set to its `deps`, unless already a member. */
    method TrackEffects(d: Dep)
      requires Valid(S()) && IsTracking(S()) && HasDep(G(), d)
      modifies this
      ensures S() == TrackS(old(S()), d)
      ensures Valid(S())
    {
      TrackValid(S(), d);
      var e := activeEffect.value;
      var dep := Subs(G(), d);
      if e in dep {
        return;
      }
      effects := effects[e := effects[e].(deps := effects[e].deps + [d])];
      SetDep(d, dep + [e]);
    }

    /** `track(target, key)`: create the target's map and the key's Set on first use, then `trackEffects`. */
    method Track(t: nat, k: Key)
      requires Valid(S())
      modifies this
      ensures S() == TrackS(old(S()), KeyDep(t, k))
      ensures Valid(S())
    {
      TrackValid(S(), KeyDep(t, k));
      if !IsTracking(S()) {
        return;
      }
      var depsMap := if t in targetMap then targetMap[t] else map[];
      if t !in targetMap {
        targetMap := targetMap[t := depsMap];
      }
      if k !in depsMap {
        depsMap := depsMap[k := []];
        targetMap := targetMap[t := depsMap];
      }
      CreateKeyDepFacts(old(G()), t, k);
      assert targetMap == CreateKeyDep(old(G()), t, k).targetMap;
      TrackEffects(KeyDep(t, k));
    }

    /** The read of Set `d` by an effect's function: a field read `track`s, a ref read `trackRefValue`s. */
    method TrackRead(d: Dep)
      requires Valid(S()) && (d.RefDep? ==> d.ref < |refDeps|)
      modifies this
      ensures S() == TrackS(old(S()), d)
      ensures Valid(S())
    {
      match d
      case KeyDep(t, k) =>
        Track(t, k);
      case RefDep(r) =>
        if IsTracking(S()) {
          TrackEffects(d);
        }
    }

    /** `run()`: returns what the function returns. */
    method Run(e: EffectId) returns (r: Value)
      requires Valid(S()) && e < |effects|
      modifies this
      ensures RefReadsExist(old(G()), old(effects[e].body))
      ensures S() == RunS(old(S()), e)
      ensures Valid(S())
      ensures r == old(effects[e].result)
    {
      RunValid(S(), e);
      ghost var s0 := S();
      var body := effects[e].body;
      var wasActive := effects[e].active;
      calls := calls + [RanFn(e)];
      if wasActive {
        shouldTrack := true;
        activeEffect := Some(e);
      }
      ghost var s1 := S();
      ghost var a := activeEffect;
      ghost var tracking := IsTracking(s1);
      assert tracking ==> effects[a.value].active;
      for i := 0 to |body|
        invariant Valid(S())
        invariant activeEffect == a && shouldTrack == s1.shouldTrack && calls == s1.calls
        invariant G() == (if tracking then SubscribeAll(s0.g, a.value, body[..i]) else s0.g)
      {
        assert body[..i + 1][..i] == body[..i];
        TrackRead(body[i]);
      }
      assert body[..|body|] == body;
      r := effects[e].result;
      if wasActive {
        shouldTrack := false;
      }
    }

    /** `cleanupEffect`'s loop: `dep.delete(effect)` for each Set of `ds`, in order. */
    method DeleteFromAll(e: EffectId, ds: seq<Dep>)
      requires forall d | d in ds :: HasDep(G(), d)
      modifies this
      ensures RefReadsExist(old(G()), ds)
      ensures G() == CleanupDeps(old(G()), e, ds)
      ensures activeEffect == old(activeEffect) && shouldTrack == old(shouldTrack) && calls == old(calls)
    {
      for i := 0 to |ds|
        invariant forall d | d in ds[i..] :: HasDep(G(), d)
        invariant CleanupDeps(G(), e, ds[i..]) == CleanupDeps(old(G()), e, ds)
        invariant activeEffect == old(activeEffect) && shouldTrack == old(shouldTrack) && calls == old(calls)
      {
        assert ds[i..][0] == ds[i] && ds[i..][1..] == ds[i + 1..];
        SetDep(ds[i], Removed(Subs(G(), ds[i]), e));
      }
    }

    /** `cleanupEffect`: delete the effect from each Set in its `deps`, then empty `deps`. */
    method CleanupEffect(e: EffectId)
      requires Valid(S()) && e < |effects|
      modifies this
      ensures RefReadsExist(old(G()), old(effects[e].deps))
      ensures var g1 := CleanupDeps(old(G()), e, old(effects[e].deps));
        G() == g1.(effects := g1.effects[e := g1.effects[e].(deps := [])])
      ensures activeEffect == old(activeEffect) && shouldTrack == old(shouldTrack) && calls == old(calls)
    {
      DepsExist(G(), e);
      DeleteFromAll(e, effects[e].deps);
      effects := effects[e := effects[e].(deps := [])];
    }

    /** `stop()`. */
    method Stop(e: EffectId)
      requires Valid(S()) && e < |effects|
      requires !(IsTracking(S()) && activeEffect == Some(e))
      modifies this
      ensures RefReadsExist(old(G()), old(effects[e].deps))
      ensures S() == StopS(old(S()), e)
      ensures Valid(S())
    {
      StopValid(S(), e);
      if effects[e].active {
        CleanupEffect(e);
        if effects[e].hasOnStop {
          calls := calls + [CalledOnStop(e)];
        }
        effects := effects[e := effects[e].(active := false)];
      }
    }

    /** One subscriber of `triggerEffects`: its scheduler when it has one, else `run`. */
    method Notify(x: EffectId)
      requires Valid(S()) && x < |effects| && RefReadsExist(G(), effects[x].body)
      modifies this
      ensures S() == NotifyS(old(S()), x)
    {
      if effects[x].hasScheduler {
        calls := calls + [CalledScheduler(x)];
      } else {
        var _ := Run(x);
      }
    }

    /** `triggerEffects(dep)`: iterates the live Set, which the runs it makes leave unchanged. */
    method TriggerEffects(d: Dep)
      requires Valid(S()) && HasDep(G(), d)
      modifies this
      ensures Runnable(old(S()), old(Subs(G(), d)))
      ensures S() == TriggerS(old(S()), d)
      ensures Valid(S())
    {
      var subs := Subs(G(), d);
      MembersRunnable(G(), d);
      ghost var s0 := S();
      assert Runnable(S(), subs[0..]) by {
        forall j | 0 <= j < |subs[0..]| ensures subs[0..][j] < |effects| && RefReadsExist(G(), effects[subs[0..][j]].body) {
          assert subs[0..][j] in Subs(G(), d);
        }
      }
      var i := 0;
      while i < |Subs(G(), d)|
        invariant Valid(S()) && Subs(G(), d) == subs && 0 <= i <= |subs|
        invariant Runnable(S(), subs[i..])
        invariant NotifyAllS(S(), subs[i..]) == NotifyAllS(s0, subs)
      {
        var x := Subs(G(), d)[i];
        ghost var prev := S();
        assert subs[i..][0] == x && subs[i..][1..] == subs[i + 1..];
        NotifyAllStep(prev, subs[i..]);
        NotifyKeepsSet(prev, x, d);
        Notify(x);
        i := i + 1;
      }
    }

    /** `trigger(target, key)`: the target's map and the key's Set must exist. */
    method Trigger(t: nat, k: Key)
      requires Valid(S()) && t in targetMap && k in targetMap[t]
      modifies this
      ensures Runnable(old(S()), old(Subs(G(), KeyDep(t, k))))
      ensures S() == TriggerS(old(S()), KeyDep(t, k))
      ensures Valid(S())
    {
      TriggerEffects(KeyDep(t, k));
    }

    /** `effect(fn, options)`: returns the runner, i.e. the new effect's id. */
    method Effect(body: seq<Dep>, result: Value, hasScheduler: bool, hasOnStop: bool) returns (runner: EffectId)
      requires Valid(S()) && RefReadsExist(G(), body)
      modifies this
      ensures runner == old(|effects|)
      ensures S() == EffectS(old(S()), body, result, hasScheduler, hasOnStop)
      ensures Valid(S())
    {
      EffectRunsOnce(S(), body, result, hasScheduler, hasOnStop);
      runner := |effects|;
      effects := effects + [EffectRec(body, result, hasScheduler, hasOnStop, true, [])];
      AppendEffectConsistent(old(G()), EffectRec(body, result, hasScheduler, hasOnStop, true, []));
      var _ := Run(runner);
    }
  }
}
