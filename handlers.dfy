/**
 * The proxy handlers of packages/reactivity/src/baseHandlers.ts (copy in
 * lib/x-mini-vue.cjs.js:180-256) and the wrappers `reactive`, `readonly` and
 * `shallowReadonly`, as explicit `get(mode, target, key)` and
 * `set(mode, target, key, value)` over an object store.
 *
 * The store is an arena: a reference is either a plain object (its own
 * fields) or a proxy (its handler mode and its target, which may itself be a
 * proxy made earlier). `Reflect.get`/`Reflect.set` on a proxy target go
 * through that proxy's handler, so reads and writes follow the chain of
 * targets down to a plain object.
 */
module Handlers {
  import opened Values
  import opened Wrappers
  import opened DepGraph
  import opened Effect

  datatype Entity = Plain(fields: map<Key, Value>) | Wrapper(mode: Mode, target: nat)

  /** A `console.warn` of the readonly setter: the key, the value refused and the target. */
  datatype Warning = Warning(key: Key, value: Value, target: nat)

  predicate ValueIn(heap: seq<Entity>, v: Value)
  {
    v.Obj? ==> v.ref < |heap|
  }

  predicate EntityOk(heap: seq<Entity>, i: nat)
    requires i < |heap|
  {
    match heap[i]
    case Wrapper(_, t) => t < i
    case Plain(f) => forall k | k in f :: ValueIn(heap, f[k])
  }

  /** Every reference is allocated, and a proxy's target was made before it. */
  predicate ValidHeap(heap: seq<Entity>)
  {
    forall i | 0 <= i < |heap| :: EntityOk(heap, i)
  }

  predicate IsProxy(heap: seq<Entity>, p: nat)
  {
    p < |heap| && heap[p].Wrapper?
  }

  /** `Reflect.get` on a plain object: an own field, or `undefined`. */
  function FieldOf(fields: map<Key, Value>, key: Key): Value
  {
    if key in fields then fields[key] else Undefined
  }

  /** What a `get` returns, the `track(target, key)` calls it makes, and the proxies it creates. */
  datatype Read = Read(value: Value, tracks: seq<Dep>, allocs: seq<Entity>)

  lemma ExtendHeap(heap: seq<Entity>, more: seq<Entity>)
    requires ValidHeap(heap)
    requires forall j | 0 <= j < |more| :: more[j].Wrapper? && more[j].target < |heap| + j
    ensures ValidHeap(heap + more)
  {
    var h := heap + more;
    forall i | 0 <= i < |h| ensures EntityOk(h, i) {
      if i < |heap| {
        assert h[i] == heap[i];
        assert EntityOk(heap, i);
      } else {
        assert h[i] == more[i - |heap|];
      }
    }
  }

  /**
   * The `get` trap made by `createGetter(isReadonly, shallow)` of proxy `p`:
   * sentinel keys answer without reading; otherwise the target is read; a
   * shallow proxy returns the field as is; a deep one wraps an object field in
   * a new `readonly`/`reactive` proxy; and only a deep mutable proxy tracks
   * the read of a non-object field.
   */
  function GetS(heap: seq<Entity>, p: nat, key: Key): (r: Read)
    requires ValidHeap(heap) && IsProxy(heap, p)
    ensures ValidHeap(heap + r.allocs) && ValueIn(heap + r.allocs, r.value)
    ensures forall j | 0 <= j < |r.allocs| :: r.allocs[j].Wrapper? && r.allocs[j].target < |heap| + j
    ensures forall d | d in r.tracks :: d.KeyDep? && d.key == key && d.target < p
    decreases p
  {
    var mode := heap[p].mode;
    var t := heap[p].target;
    assert EntityOk(heap, p);
    assert heap + [] == heap;
    if key == IS_REACTIVE then Read(Bool(!mode.isReadonly), [], [])
    else if key == IS_READONLY then Read(Bool(mode.isReadonly), [], [])
    else if key == RAW then Read(Obj(t), [], [])
    else
      var inner := if heap[t].Plain? then (assert EntityOk(heap, t); Read(FieldOf(heap[t].fields, key), [], []))
                   else GetS(heap, t, key);
      var res := inner.value;
      if mode.shallow then inner
      else if IsObject(res) then
        var allocs := inner.allocs + [Wrapper(if mode.isReadonly then READONLY else MUTABLE, res.ref)];
        ExtendHeap(heap, allocs);
        Read(Obj(|heap| + |inner.allocs|), inner.tracks, allocs)
      else if !mode.isReadonly then Read(res, inner.tracks + [KeyDep(t, key)], inner.allocs)
      else inner
  }

  /** What a `set` leaves in the store, the `trigger(target, key)` calls it makes and the warnings it prints. */
  datatype Write = Write(heap: seq<Entity>, triggers: seq<Dep>, warnings: seq<Warning>)

  /**
   * The `set` trap of proxy `p`: a readonly proxy warns and writes nothing; a
   * mutable one (deep or shallow) writes through to its target first, then
   * triggers `(target, key)`. Both return true.
   */
  function SetS(heap: seq<Entity>, p: nat, key: Key, v: Value): (w: Write)
    requires ValidHeap(heap) && IsProxy(heap, p) && ValueIn(heap, v)
    ensures |w.heap| == |heap| && ValidHeap(w.heap)
    ensures forall i | 0 <= i < |heap| && heap[i].Wrapper? :: w.heap[i] == heap[i]
    ensures forall i | 0 <= i < |heap| :: w.heap[i].Plain? == heap[i].Plain?
    decreases p
  {
    var mode := heap[p].mode;
    var t := heap[p].target;
    assert EntityOk(heap, p);
    if mode.isReadonly then Write(heap, [], [Warning(key, v, t)])
    else
      var inner :=
        if heap[t].Plain? then
          var h := heap[t := Plain(heap[t].fields[key := v])];
          assert forall i | 0 <= i < |h| :: EntityOk(h, i) by {
            forall i | 0 <= i < |h| ensures EntityOk(h, i) {
              assert EntityOk(heap, i);
            }
          }
          Write(h, [], [])
        else SetS(heap, t, key, v);
      Write(inner.heap, inner.triggers + [KeyDep(t, key)], inner.warnings)
  }

  /** The references on the chain of targets from proxy `p` down to (and including) its plain object. */
  predicate OnChain(heap: seq<Entity>, p: nat, q: nat)
    requires ValidHeap(heap) && p < |heap|
    decreases p
  {
    q == p || (heap[p].Wrapper? && (assert EntityOk(heap, p); OnChain(heap, heap[p].target, q)))
  }

  /** The plain object at the end of `p`'s chain of targets. */
  function Base(heap: seq<Entity>, p: nat): (b: nat)
    requires ValidHeap(heap) && p < |heap|
    ensures b <= p && heap[b].Plain?
    decreases p
  {
    if heap[p].Plain? then p else (assert EntityOk(heap, p); Base(heap, heap[p].target))
  }

  /** No proxy on `p`'s chain is readonly, so a write reaches the plain object. */
  predicate ChainMutable(heap: seq<Entity>, p: nat)
    requires ValidHeap(heap) && p < |heap|
    decreases p
  {
    heap[p].Plain? || (!heap[p].mode.isReadonly && (assert EntityOk(heap, p); ChainMutable(heap, heap[p].target)))
  }

  /**
   * Every Set `set` will trigger already exists: `trigger` dereferences the
   * target's map and the key's Set unguarded.
   */
  ghost predicate TriggerReady(heap: seq<Entity>, g: Graph, p: nat, key: Key)
    requires ValidHeap(heap) && IsProxy(heap, p)
    decreases p
  {
    var t := heap[p].target;
    assert EntityOk(heap, p);
    heap[p].mode.isReadonly ||
    (HasDep(g, KeyDep(t, key)) && (heap[t].Wrapper? ==> TriggerReady(heap, g, t, key)))
  }

  /**
   * Every `track` of a read is of `(target, key)` for a deep mutable proxy on
   * the chain: readonly and shallow proxies never track.
   */
  lemma {:induction false} GetTracksMutableOnly(heap: seq<Entity>, p: nat, key: Key)
    requires ValidHeap(heap) && IsProxy(heap, p)
    ensures forall d | d in GetS(heap, p, key).tracks ::
      exists q: nat | q <= p && OnChain(heap, p, q) && heap[q].Wrapper? :: heap[q].mode == MUTABLE && d == KeyDep(heap[q].target, key)
    decreases p
  {
    assert EntityOk(heap, p);
    var t := heap[p].target;
    if heap[t].Wrapper? && key != IS_REACTIVE && key != IS_READONLY && key != RAW {
      GetTracksMutableOnly(heap, t, key);
      var inner := GetS(heap, t, key);
      forall d | d in GetS(heap, p, key).tracks
        ensures exists q: nat | q <= p && OnChain(heap, p, q) && heap[q].Wrapper? :: heap[q].mode == MUTABLE && d == KeyDep(heap[q].target, key)
      {
        if d in inner.tracks {
          var q: nat :| q <= t && OnChain(heap, t, q) && heap[q].Wrapper? && heap[q].mode == MUTABLE && d == KeyDep(heap[q].target, key);
          assert OnChain(heap, p, q);
        } else {
          assert heap[p].mode == MUTABLE && d == KeyDep(t, key);
        }
      }
    }
  }

  /** A proxy's sentinel keys answer from the handler's flags, without reading or tracking. */
  lemma SentinelKeys(heap: seq<Entity>, p: nat)
    requires ValidHeap(heap) && IsProxy(heap, p)
    ensures GetS(heap, p, IS_REACTIVE) == Read(Bool(!heap[p].mode.isReadonly), [], [])
    ensures GetS(heap, p, IS_READONLY) == Read(Bool(heap[p].mode.isReadonly), [], [])
    ensures GetS(heap, p, RAW) == Read(Obj(heap[p].target), [], [])
  {
  }

  /**
   * Reads through a proxy whose target is a plain object: shallow returns the
   * field untracked; deep wraps an object field (readonly under a readonly
   * parent) without tracking; only deep mutable tracks, and only a
   * non-object field.
   */
  lemma GetOverPlainObject(heap: seq<Entity>, p: nat, key: Key)
    requires ValidHeap(heap) && IsProxy(heap, p)
    requires key != IS_REACTIVE && key != IS_READONLY && key != RAW
    requires heap[p].target < |heap| && heap[heap[p].target].Plain?
    ensures var f := FieldOf(heap[heap[p].target].fields, key);
      var r := GetS(heap, p, key);
      var m := heap[p].mode;
      && (m.shallow ==> r == Read(f, [], []))
      && (!m.shallow && IsObject(f) ==>
            r == Read(Obj(|heap|), [], [Wrapper(if m.isReadonly then READONLY else MUTABLE, f.ref)]))
      && (!m.shallow && !IsObject(f) ==>
            r == Read(f, if m.isReadonly then [] else [KeyDep(heap[p].target, key)], []))
  {
  }

  /**
   * A `set` through a chain of mutable proxies writes the value into the
   * plain object at the end, triggers each proxy's `(target, key)` from the
   * innermost out, and warns nowhere; a chain with a readonly proxy changes
   * no object and warns exactly once.
   */
  lemma {:induction false} SetEffect(heap: seq<Entity>, p: nat, key: Key, v: Value)
    requires ValidHeap(heap) && IsProxy(heap, p) && ValueIn(heap, v)
    ensures var w := SetS(heap, p, key, v);
      var b := Base(heap, p);
      && (ChainMutable(heap, p) ==>
            && w.heap == heap[b := Plain(heap[b].fields[key := v])]
            && w.warnings == []
            && |w.triggers| > 0 && w.triggers[|w.triggers| - 1] == KeyDep(heap[p].target, key))
      && (!ChainMutable(heap, p) ==> w.heap == heap && |w.warnings| == 1)
    decreases p
  {
    assert EntityOk(heap, p);
    var t := heap[p].target;
    if !heap[p].mode.isReadonly {
      assert ChainMutable(heap, p) == ChainMutable(heap, t);
      if heap[t].Wrapper? {
        SetEffect(heap, t, key, v);
        assert Base(heap, p) == Base(heap, t);
      }
    }
  }

  /** After a `set` of a non-object value through mutable proxies, a `get` of the same key returns it. */
  lemma {:induction false} GetAfterSet(heap: seq<Entity>, p: nat, key: Key, v: Value)
    requires ValidHeap(heap) && IsProxy(heap, p) && ValueIn(heap, v)
    requires key != IS_REACTIVE && key != IS_READONLY && key != RAW
    requires ChainMutable(heap, p) && !IsObject(v)
    ensures GetS(SetS(heap, p, key, v).heap, p, key).value == v
    decreases p
  {
    assert EntityOk(heap, p);
    var t := heap[p].target;
    var h' := SetS(heap, p, key, v).heap;
    SetEffect(heap, p, key, v);
    if heap[t].Wrapper? {
      SetEffect(heap, t, key, v);
      GetAfterSet(heap, t, key, v);
      assert SetS(heap, p, key, v).heap == SetS(heap, t, key, v).heap;
    }
  }

  class Store {
    var heap: seq<Entity>
    var warnings: seq<Warning>

    ghost predicate Valid()
      reads this
    {
      ValidHeap(heap)
    }

    constructor ()
      ensures heap == [] && warnings == [] && Valid()
    {
      heap := [];
      warnings := [];
    }

    /** An object literal of user code. */
    method NewObject(fields: map<Key, Value>) returns (r: Value)
      requires Valid() && forall k | k in fields :: ValueIn(heap, fields[k])
      modifies this
      ensures Valid() && r == Obj(old(|heap|))
      ensures heap == old(heap) + [Plain(fields)] && warnings == old(warnings)
    {
      r := Obj(|heap|);
      var h := heap + [Plain(fields)];
      forall i | 0 <= i < |h| ensures EntityOk(h, i) {
        if i < |heap| { assert EntityOk(heap, i); assert h[i] == heap[i]; }
      }
      heap := h;
    }

    /** `createReactiveObject(raw, handlers)`: `new Proxy(raw, handlers)`, a new object every call; a non-object throws. */
    method CreateReactiveObject(raw: Value, mode: Mode) returns (p: Result<Value>)
      requires Valid() && ValueIn(heap, raw)
      modifies this
      ensures Valid() && warnings == old(warnings)
      ensures !IsObject(raw) ==> p == TypeError && heap == old(heap)
      ensures IsObject(raw) ==>
        p == Ok(Obj(old(|heap|))) && p.value != raw && heap == old(heap) + [Wrapper(mode, raw.ref)]
    {
      if !IsObject(raw) {
        return TypeError;
      }
      ExtendHeap(heap, [Wrapper(mode, raw.ref)]);
      p := Ok(Obj(|heap|));
      heap := heap + [Wrapper(mode, raw.ref)];
    }

    /** `reactive(raw)`. */
    method Reactive(raw: Value) returns (p: Result<Value>)
      requires Valid() && ValueIn(heap, raw)
      modifies this
      ensures Valid() && warnings == old(warnings)
      ensures !IsObject(raw) ==> p == TypeError && heap == old(heap)
      ensures IsObject(raw) ==> p == Ok(Obj(old(|heap|))) && heap == old(heap) + [Wrapper(MUTABLE, raw.ref)]
    {
      p := CreateReactiveObject(raw, MUTABLE);
    }

    /** `readonly(raw)`. */
    method Readonly(raw: Value) returns (p: Result<Value>)
      requires Valid() && ValueIn(heap, raw)
      modifies this
      ensures Valid() && warnings == old(warnings)
      ensures !IsObject(raw) ==> p == TypeError && heap == old(heap)
      ensures IsObject(raw) ==> p == Ok(Obj(old(|heap|))) && heap == old(heap) + [Wrapper(READONLY, raw.ref)]
    {
      p := CreateReactiveObject(raw, READONLY);
    }

    /** `shallowReadonly(raw)`. */
    method ShallowReadonly(raw: Value) returns (p: Result<Value>)
      requires Valid() && ValueIn(heap, raw)
      modifies this
      ensures Valid() && warnings == old(warnings)
      ensures !IsObject(raw) ==> p == TypeError && heap == old(heap)
      ensures IsObject(raw) ==> p == Ok(Obj(old(|heap|))) && heap == old(heap) + [Wrapper(SHALLOW_READONLY, raw.ref)]
    {
      p := CreateReactiveObject(raw, SHALLOW_READONLY);
    }

    /** The `get` trap of proxy `p`, tracking into `tr`. */
    method Get(p: nat, key: Key, tr: Tracker) returns (v: Value)
      requires Valid() && IsProxy(heap, p) && Effect.Valid(tr.S())
      modifies this, tr
      ensures Valid() && Effect.Valid(tr.S())
      ensures var r := GetS(old(heap), p, key);
        && v == r.value && heap == old(heap) + r.allocs && warnings == old(warnings)
        && RefReadsExist(old(tr.G()), r.tracks)
        && tr.S() == TrackReadsS(old(tr.S()), r.tracks)
      decreases p
    {
      assert EntityOk(heap, p);
      var mode := heap[p].mode;
      var t := heap[p].target;
      if key == IS_REACTIVE {
        return Bool(!mode.isReadonly);
      } else if key == IS_READONLY {
        return Bool(mode.isReadonly);
      } else if key == RAW {
        return Obj(t);
      }
      var res;
      if heap[t].Plain? {
        res := FieldOf(heap[t].fields, key);
        assert EntityOk(heap, t);
      } else {
        res := Get(t, key, tr);
      }
      if mode.shallow {
        return res;
      }
      if IsObject(res) {
        var wrapped;
        if mode.isReadonly {
          wrapped := Readonly(res);
        } else {
          wrapped := Reactive(res);
        }
        return wrapped.value;
      }
      if !mode.isReadonly {
        tr.Track(t, key);
        TrackReadsSnoc(old(tr.S()), if old(heap)[t].Plain? then [] else GetS(old(heap), t, key).tracks, KeyDep(t, key));
      }
      v := res;
    }

    /** The `set` trap of proxy `p`, triggering through `tr`; it always returns true. */
    method Set(p: nat, key: Key, v: Value, tr: Tracker) returns (ok: bool)
      requires Valid() && IsProxy(heap, p) && ValueIn(heap, v) && Effect.Valid(tr.S())
      requires TriggerReady(heap, tr.G(), p, key)
      modifies this, tr
      ensures Valid() && Effect.Valid(tr.S()) && ok
      ensures var w := SetS(old(heap), p, key, v);
        && heap == w.heap && warnings == old(warnings) + w.warnings
        && tr.S() == TriggersS(old(tr.S()), w.triggers)
      decreases p
    {
      assert EntityOk(heap, p);
      var mode := heap[p].mode;
      var t := heap[p].target;
      if mode.isReadonly {
        warnings := warnings + [Warning(key, v, t)];
        return true;
      }
      if heap[t].Plain? {
        heap := heap[t := Plain(heap[t].fields[key := v])];
      } else {
        var _ := Set(t, key, v, tr);
      }
      ghost var innerTriggers := if old(heap)[t].Plain? then [] else SetS(old(heap), t, key, v).triggers;
      assert HasDep(tr.G(), KeyDep(t, key));
      tr.Trigger(t, key);
      TriggersSnoc(old(tr.S()), innerTriggers, KeyDep(t, key));
      assert ValidHeap(SetS(old(heap), p, key, v).heap);
      ok := true;
    }
  }
}
