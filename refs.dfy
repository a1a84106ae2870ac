/**
 * Refs: `RefImpl`, `ref`, `isRef`, `unRef` and `proxyRefs` of
 * lib/x-mini-vue.cjs.js:730-795, and the early `RefImpl` of
 * src/reactivity/ref.ts. A ref's `dep` Set lives in the tracker's arena of
 * ref Sets; `dep` is its index there.
 */
module Refs {
  import opened Values
  import opened Wrappers
  import opened DepGraph
  import opened Effect
  import opened Handlers

  /** `trackRefValue(ref)`: `trackEffects(ref.dep)` only while tracking. */
  method TrackRefValue(dep: nat, tr: Tracker)
    requires Effect.Valid(tr.S()) && dep < |tr.refDeps|
    modifies tr
    ensures tr.S() == TrackS(old(tr.S()), RefDep(dep)) && Effect.Valid(tr.S())
    ensures |tr.refDeps| == old(|tr.refDeps|)
  {
    TrackValid(tr.S(), RefDep(dep));
    if IsTracking(tr.S()) {
      tr.TrackEffects(RefDep(dep));
    }
  }

  /** `convert(value)`: an object becomes a new `reactive` proxy; anything else stays. */
  method Convert(v: Value, store: Store) returns (r: Value)
    requires store.Valid() && ValueIn(store.heap, v)
    modifies store
    ensures store.Valid() && store.warnings == old(store.warnings)
    ensures IsObject(v) ==> r == Obj(old(|store.heap|)) && store.heap == old(store.heap) + [Wrapper(MUTABLE, v.ref)]
    ensures !IsObject(v) ==> r == v && store.heap == old(store.heap)
  {
    if IsObject(v) {
      var wrapped := store.Reactive(v);
      r := wrapped.value;
    } else {
      r := v;
    }
  }

  /** The `RefImpl` of lib/x-mini-vue.cjs.js: the raw value for comparisons, the converted value for reads. */
  class RefImpl {
    var rawValue: Value
    var value: Value
    const dep: nat

    /** `ref(value)`. */
    constructor (v: Value, store: Store, tr: Tracker)
      requires store.Valid() && ValueIn(store.heap, v) && Effect.Valid(tr.S())
      modifies store, tr
      ensures rawValue == v
      ensures IsObject(v) ==> value == Obj(old(|store.heap|)) && store.heap == old(store.heap) + [Wrapper(MUTABLE, v.ref)]
      ensures !IsObject(v) ==> value == v && store.heap == old(store.heap)
      ensures store.Valid() && store.warnings == old(store.warnings)
      ensures dep == old(|tr.refDeps|) && Effect.Valid(tr.S())
      ensures tr.S() == old(tr.S()).(g := old(tr.G()).(refDeps := old(tr.refDeps) + [[]]))
    {
      var converted := Convert(v, store);
      var d := tr.NewRefDep();
      rawValue := v;
      value := converted;
      dep := d;
    }

    /** `get value()`: track the ref's own Set, return the converted value. */
    method GetValue(tr: Tracker) returns (v: Value)
      requires Effect.Valid(tr.S()) && dep < |tr.refDeps|
      modifies tr
      ensures v == value
      ensures tr.S() == TrackS(old(tr.S()), RefDep(dep)) && Effect.Valid(tr.S())
      ensures |tr.refDeps| == old(|tr.refDeps|)
    {
      TrackRefValue(dep, tr);
      v := value;
    }

    /**
     * `set value(newValue)`: only a value different from the raw one is
     * stored (raw and converted) and then triggers the ref's Set.
     */
    method SetValue(newValue: Value, store: Store, tr: Tracker)
      requires store.Valid() && ValueIn(store.heap, newValue) && Effect.Valid(tr.S()) && dep < |tr.refDeps|
      modifies this, store, tr
      ensures store.Valid() && store.warnings == old(store.warnings) && Effect.Valid(tr.S())
      ensures |tr.refDeps| == old(|tr.refDeps|)
      ensures Runnable(old(tr.S()), old(Subs(tr.G(), RefDep(dep))))
      ensures HasChanged(newValue, old(rawValue)) ==>
        && rawValue == newValue
        && (IsObject(newValue) ==> value == Obj(old(|store.heap|)) && store.heap == old(store.heap) + [Wrapper(MUTABLE, newValue.ref)])
        && (!IsObject(newValue) ==> value == newValue && store.heap == old(store.heap))
        && tr.S() == TriggerS(old(tr.S()), RefDep(dep))
      ensures !HasChanged(newValue, old(rawValue)) ==>
        rawValue == old(rawValue) && value == old(value) && store.heap == old(store.heap) && tr.S() == old(tr.S())
    {
      MembersRunnable(tr.G(), RefDep(dep));
      if HasChanged(newValue, rawValue) {
        rawValue := newValue;
        value := Convert(newValue, store);
        TriggerValid(tr.S(), RefDep(dep));
        tr.TriggerEffects(RefDep(dep));
      }
    }
  }

  /** The early `RefImpl` of src/reactivity/ref.ts: one value, stored as given, compared with itself. */
  class EarlyRefImpl {
    var value: Value
    const dep: nat

    /** `ref(value)`: no conversion. */
    constructor (v: Value, tr: Tracker)
      requires Effect.Valid(tr.S())
      modifies tr
      ensures value == v
      ensures dep == old(|tr.refDeps|) && Effect.Valid(tr.S())
      ensures tr.S() == old(tr.S()).(g := old(tr.G()).(refDeps := old(tr.refDeps) + [[]]))
    {
      var d := tr.NewRefDep();
      value := v;
      dep := d;
    }

    method GetValue(tr: Tracker) returns (v: Value)
      requires Effect.Valid(tr.S()) && dep < |tr.refDeps|
      modifies tr
      ensures v == value
      ensures tr.S() == TrackS(old(tr.S()), RefDep(dep)) && Effect.Valid(tr.S())
      ensures |tr.refDeps| == old(|tr.refDeps|)
    {
      TrackRefValue(dep, tr);
      v := value;
    }

    method SetValue(newValue: Value, tr: Tracker)
      requires Effect.Valid(tr.S()) && dep < |tr.refDeps|
      modifies this, tr
      ensures Effect.Valid(tr.S()) && |tr.refDeps| == old(|tr.refDeps|)
      ensures Runnable(old(tr.S()), old(Subs(tr.G(), RefDep(dep))))
      ensures HasChanged(newValue, old(value)) ==> value == newValue && tr.S() == TriggerS(old(tr.S()), RefDep(dep))
      ensures !HasChanged(newValue, old(value)) ==> value == old(value) && tr.S() == old(tr.S())
    {
      MembersRunnable(tr.G(), RefDep(dep));
      if HasChanged(newValue, value) {
        value := newValue;
        TriggerValid(tr.S(), RefDep(dep));
        tr.TriggerEffects(RefDep(dep));
      }
    }
  }

  /** A field of an object given to `proxyRefs`: a ref, or any other value. */
  datatype Field = Val(v: Value) | RefField(r: RefImpl)

  /** `isRef(x)`: `!!x.__v_isRef`, which throws on `undefined` and `null`. */
  function IsRef(f: Field): (r: Result<bool>)
    ensures r == TypeError <==> f == Val(Undefined) || f == Val(Null)
    ensures r == Ok(true) <==> f.RefField?
  {
    match f
    case RefField(_) => Ok(true)
    case Val(v) => if v == Undefined || v == Null then TypeError else Ok(false)
  }

  /** The user's object handed to `proxyRefs`, shared with whoever else holds it. */
  class RefsObject {
    var fields: map<Key, Field>

    constructor (fs: map<Key, Field>)
      ensures fields == fs
    {
      fields := fs;
    }

    function FieldAt(key: Key): Field
      reads this
    {
      if key in fields then fields[key] else Val(Undefined)
    }

    function RefObjects(): set<RefImpl>
      reads this
    {
      set k | k in fields && fields[k].RefField? :: fields[k].r
    }
  }

  /** The proxy `proxyRefs(objectWithRefs)` returns: reads unwrap refs, writes into a ref field set its value. */
  class ProxyRefs {
    const target: RefsObject

    constructor (objectWithRefs: RefsObject)
      ensures target == objectWithRefs
    {
      target := objectWithRefs;
    }

    /** Every ref of the object has its Set in the tracker. */
    ghost predicate Valid(tr: Tracker)
      reads this, target, tr
    {
      forall r | r in target.RefObjects() :: r.dep < |tr.refDeps|
    }

    /** `get(target, key)`: `unRef(Reflect.get(target, key))`. */
    method Get(key: Key, tr: Tracker) returns (res: Result<Value>)
      requires Valid(tr) && Effect.Valid(tr.S())
      modifies tr
      ensures Valid(tr) && Effect.Valid(tr.S())
      ensures var f := old(target.FieldAt(key));
        && (f == Val(Undefined) || f == Val(Null) ==> res == TypeError && tr.S() == old(tr.S()))
        && (f.Val? && f.v != Undefined && f.v != Null ==> res == Ok(f.v) && tr.S() == old(tr.S()))
        && (f.RefField? ==> res == Ok(f.r.value) && tr.S() == TrackS(old(tr.S()), RefDep(f.r.dep)))
    {
      var f := target.FieldAt(key);
      var isRef := IsRef(f);
      match isRef
      case TypeError =>
        res := TypeError;
      case Ok(b) =>
        if b {
          assert f.r in target.RefObjects();
          var v := f.r.GetValue(tr);
          res := Ok(v);
        } else {
          res := Ok(f.v);
        }
    }

    /**
     * `set(target, key, value)`: when the old field is a ref and the new value
     * is not, the ref's `value` is set and the trap returns the value;
     * otherwise the field is replaced and the trap returns true.
     */
    method Set(key: Key, f: Field, store: Store, tr: Tracker) returns (res: Result<Value>)
      requires Valid(tr) && Effect.Valid(tr.S()) && store.Valid()
      requires f.RefField? ==> f.r.dep < |tr.refDeps|
      requires f.Val? ==> ValueIn(store.heap, f.v)
      modifies target, target.RefObjects(), store, tr
      ensures Valid(tr) && Effect.Valid(tr.S()) && store.Valid()
      ensures var cur := old(target.FieldAt(key));
        && (cur == Val(Undefined) || cur == Val(Null) ==> res == TypeError && target.fields == old(target.fields))
        && (cur.RefField? && (f == Val(Undefined) || f == Val(Null)) ==> res == TypeError && target.fields == old(target.fields))
        && (cur.RefField? && f.Val? && f.v != Undefined && f.v != Null ==>
              res == Ok(f.v) && target.fields == old(target.fields)
              && (HasChanged(f.v, old(cur.r.rawValue)) ==>
                    && cur.r.rawValue == f.v
                    && (IsObject(f.v) ==> cur.r.value == Obj(old(|store.heap|)) && store.heap == old(store.heap) + [Wrapper(MUTABLE, f.v.ref)])
                    && (!IsObject(f.v) ==> cur.r.value == f.v && store.heap == old(store.heap))
                    && tr.S() == TriggerS(old(tr.S()), RefDep(cur.r.dep)))
              && (!HasChanged(f.v, old(cur.r.rawValue)) ==>
                    cur.r.rawValue == old(cur.r.rawValue) && cur.r.value == old(cur.r.value)
                    && store.heap == old(store.heap) && tr.S() == old(tr.S())))
        && ((cur.RefField? && f.RefField?) || (cur.Val? && cur.v != Undefined && cur.v != Null) ==>
              res == Ok(Bool(true)) && target.fields == old(target.fields)[key := f] && tr.S() == old(tr.S()))
    {
      var cur := target.FieldAt(key);
      var curIsRef := IsRef(cur);
      if curIsRef == TypeError {
        return TypeError;
      }
      if curIsRef == Ok(true) {
        var newIsRef := IsRef(f);
        if newIsRef == TypeError {
          return TypeError;
        }
        if newIsRef == Ok(false) {
          assert cur.r in target.RefObjects();
          cur.r.SetValue(f.v, store, tr);
          return Ok(f.v);
        }
      }
      target.fields := target.fields[key := f];
      res := Ok(Bool(true));
    }
  }
}
