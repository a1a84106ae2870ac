/**
 * Component instances, `provide`/`inject` and the instance proxy's lookup
 * order: lib/x-mini-vue.cjs.js:258-280, 351-366, 408-433.
 *
 * A provides object is an entry of an arena; its prototype is an explicit
 * link to an earlier entry. The root `{}` has no link (the keys of
 * `Object.prototype` are not modelled). `getCurrentInstance()` is the
 * parameter `current`.
 */
module Components {
  import opened Values
  import opened Wrappers
  import opened VNodes
  import opened Slots

  /** A provides object: its own properties and the object it was created from. */
  datatype ProvidesObj = ProvidesObj(own: map<Key, Value>, proto: Option<nat>)

  /**
   * A component instance. `container` and `anchor` are what the render
   * effect's closure captures; `subTree` is `None` for the initial `{}`.
   */
  datatype Instance = Instance(
    vnode: VNode,
    parent: Option<nat>,
    providesId: nat,
    props: seq<Prop>,
    slots: map<Key, LibSlot>,
    isMounted: bool,
    subTree: Option<VNode>,
    container: Option<nat>,
    anchor: Option<nat>)

  /** Every prototype link points to an earlier object. */
  predicate ProtoOk(arena: seq<ProvidesObj>)
  {
    forall i | 0 <= i < |arena| :: arena[i].proto.Some? ==> arena[i].proto.value < i
  }

  /** Every instance's provides object exists and its parent was created before it. */
  predicate StoreOk(comps: seq<Instance>, arena: seq<ProvidesObj>)
  {
    && ProtoOk(arena)
    && (forall i | 0 <= i < |comps| :: comps[i].providesId < |arena|)
    && (forall i | 0 <= i < |comps| :: comps[i].parent.Some? ==> comps[i].parent.value < i)
  }

  /** `key in obj`, walking the prototype links. */
  function Lookup(arena: seq<ProvidesObj>, p: nat, key: Key): Option<Value>
    requires ProtoOk(arena) && p < |arena|
    decreases p
  {
    if key in arena[p].own then Some(arena[p].own[key])
    else if arena[p].proto.Some? then Lookup(arena, arena[p].proto.value, key)
    else None
  }

  /** The objects on the prototype chain starting at `p`. */
  predicate OnChain(arena: seq<ProvidesObj>, p: nat, q: nat)
    requires ProtoOk(arena) && p < |arena|
    decreases p
  {
    p == q || (arena[p].proto.Some? && OnChain(arena, arena[p].proto.value, q))
  }

  /** A key is found exactly when some object on the chain holds it as its own. */
  lemma {:induction false} LookupOnChain(arena: seq<ProvidesObj>, p: nat, key: Key)
    requires ProtoOk(arena) && p < |arena|
    ensures Lookup(arena, p, key).Some? <==> exists q :: 0 <= q < |arena| && OnChain(arena, p, q) && key in arena[q].own
    decreases p
  {
    if key !in arena[p].own && arena[p].proto.Some? {
      var up := arena[p].proto.value;
      LookupOnChain(arena, up, key);
      if exists q :: 0 <= q < |arena| && OnChain(arena, p, q) && key in arena[q].own {
        var q :| 0 <= q < |arena| && OnChain(arena, p, q) && key in arena[q].own;
        assert q != p;
        assert OnChain(arena, up, q);
      }
    } else if key !in arena[p].own {
      forall q | 0 <= q < |arena| && OnChain(arena, p, q)
        ensures q == p
      {
      }
    } else {
      assert OnChain(arena, p, p);
    }
  }

  /**
   * `createComponentInstance(vnode, parent)`: no props, no slots, not
   * mounted; the provides object is the parent's own one, or a new `{}` for
   * a root.
   */
  function CreateInstanceS(comps: seq<Instance>, arena: seq<ProvidesObj>, vnode: VNode, parent: Option<nat>): (r: (Instance, seq<ProvidesObj>))
    requires parent.Some? ==> parent.value < |comps|
    ensures parent.Some? ==> r.0.providesId == comps[parent.value].providesId && r.1 == arena
    ensures parent.None? ==> r.0.providesId == |arena| && r.1 == arena + [ProvidesObj(map[], None)]
    ensures r.0.vnode == vnode && r.0.parent == parent && !r.0.isMounted && r.0.subTree.None?
    ensures r.0.props == [] && r.0.slots == map[]
  {
    var providesId := if parent.Some? then comps[parent.value].providesId else |arena|;
    var arena' := if parent.Some? then arena else arena + [ProvidesObj(map[], None)];
    (Instance(vnode, parent, providesId, [], map[], false, None, None, None), arena')
  }

  /** `initProps`: `rawProps || {}`. */
  function PropsEntries(props: PropsArg): seq<Prop>
  {
    if props.PObj? then props.obj.entries else []
  }

  /** `setupComponent` without the user's `setup`: the props, then the slots. */
  function SetupComponent(inst: Instance): (r: Result<Instance>)
    ensures r.Ok? <==> InitSlotsS(inst.vnode.shapeFlag, inst.vnode.children, inst.slots).Ok?
    ensures r.Ok? ==> r.value == inst.(props := PropsEntries(inst.vnode.props), slots := InitSlotsS(inst.vnode.shapeFlag, inst.vnode.children, inst.slots).value)
  {
    var slots := InitSlotsS(inst.vnode.shapeFlag, inst.vnode.children, inst.slots);
    if slots.TypeError? then TypeError
    else Ok(inst.(props := PropsEntries(inst.vnode.props), slots := slots.value))
  }

  /** The instances and provides objects, updated in place by `provide`. */
  datatype Store = Store(comps: seq<Instance>, arena: seq<ProvidesObj>)

  /**
   * `provide(key, value)`: with no current instance nothing happens; the
   * current instance's parent is read unguarded, so a root throws. The
   * first write copies: a provides object shared with the parent is
   * replaced by a new one whose prototype is the parent's.
   */
  function ProvideS(st: Store, current: Option<nat>, key: Key, value: Value): Result<Store>
    requires StoreOk(st.comps, st.arena)
    requires current.Some? ==> current.value < |st.comps|
  {
    if current.None? then Ok(st)
    else
      var inst := st.comps[current.value];
      if inst.parent.None? then TypeError
      else
        var parentProvides := st.comps[inst.parent.value].providesId;
        if inst.providesId == parentProvides then
          var created := |st.arena|;
          Ok(Store(st.comps[current.value := inst.(providesId := created)], st.arena + [ProvidesObj(map[key := value], Some(parentProvides))]))
        else
          var mine := st.arena[inst.providesId];
          Ok(Store(st.comps, st.arena[inst.providesId := mine.(own := mine.own[key := value])]))
  }

  /**
   * `provide` never writes into the parent's provides object: the one
   * object it writes is the current instance's, which afterwards differs
   * from the parent's; every other object is unchanged, and the key is then
   * found from the current instance with the provided value.
   */
  lemma ProvideKeepsParent(st: Store, cur: nat, key: Key, value: Value)
    requires StoreOk(st.comps, st.arena) && cur < |st.comps|
    requires st.comps[cur].parent.Some?
    ensures var r := ProvideS(st, Some(cur), key, value);
      var par := st.comps[cur].parent.value;
      && r.Ok? && StoreOk(r.value.comps, r.value.arena)
      && |r.value.arena| >= |st.arena|
      && r.value.comps[cur].providesId != st.comps[par].providesId
      && r.value.comps[par] == st.comps[par]
      && r.value.arena[st.comps[par].providesId] == st.arena[st.comps[par].providesId]
      && (forall j | 0 <= j < |st.arena| && j != r.value.comps[cur].providesId :: r.value.arena[j] == st.arena[j])
      && Lookup(r.value.arena, r.value.comps[cur].providesId, key) == Some(value)
  {
    var r := ProvideS(st, Some(cur), key, value).value;
    var par := st.comps[cur].parent.value;
    assert par < cur;
    assert StoreOk(r.comps, r.arena);
  }

  /**
   * `inject(key, defaultValue)`: with no current instance, `undefined`; a
   * root throws; a key anywhere on the parent's chain gives its value;
   * otherwise a function default is called, a truthy default returned,
   * and a falsy one gives `undefined`.
   */
  function InjectS(st: Store, current: Option<nat>, key: Key, default: Value, callDefault: nat -> Value): (r: Result<Value>)
    requires StoreOk(st.comps, st.arena)
    requires current.Some? ==> current.value < |st.comps|
    ensures current.None? ==> r == Ok(Undefined)
    ensures current.Some? && st.comps[current.value].parent.None? ==> r == TypeError
    ensures current.Some? && st.comps[current.value].parent.Some? ==>
      var found := Lookup(st.arena, st.comps[st.comps[current.value].parent.value].providesId, key);
      && (found.Some? ==> r == Ok(found.value))
      && (found.None? && default.Func? ==> r == Ok(callDefault(default.fn)))
      && (found.None? && !default.Func? && Truthy(default) ==> r == Ok(default))
      && (found.None? && !Truthy(default) ==> r == Ok(Undefined))
  {
    if current.None? then Ok(Undefined)
    else
      var inst := st.comps[current.value];
      if inst.parent.None? then TypeError
      else
        var found := Lookup(st.arena, st.comps[inst.parent.value].providesId, key);
        if found.Some? then Ok(found.value)
        else if !Truthy(default) then Ok(Undefined)
        else if default.Func? then Ok(callDefault(default.fn))
        else Ok(default)
  }

  /** What a component provides is injected by a direct child. */
  lemma ProvideThenInject(st: Store, cur: nat, key: Key, value: Value, child: nat, default: Value, callDefault: nat -> Value)
    requires StoreOk(st.comps, st.arena) && cur < |st.comps| && st.comps[cur].parent.Some?
    requires child < |st.comps|
    ensures var r := ProvideS(st, Some(cur), key, value).value;
      var child' := r.comps[child];
      child'.parent == Some(cur) ==> InjectS(r, Some(child), key, default, callDefault) == Ok(value)
  {
    ProvideKeepsParent(st, cur, key, value);
  }

  /** The value the instance proxy's `get` yields. */
  datatype Public = FromSetup(v: Value) | FromProps(v: Value) | El(el: Option<nat>) | SlotsObj(slots: map<Key, LibSlot>) | Missing

  predicate HasProp(entries: seq<Prop>, key: Key)
  {
    exists k :: 0 <= k < |entries| && entries[k].key == key
  }

  /**
   * `PublicInstanceProxyHandlers.get`: an own key of `setupState` first,
   * then an own key of `props`, then `$el` (the vnode's host node) and
   * `$slots`; anything else is `undefined`.
   */
  function PublicGet(setupState: map<Key, Value>, props: seq<Prop>, el: Option<nat>, slots: map<Key, LibSlot>, key: Key): Public
  {
    if key in setupState then FromSetup(setupState[key])
    else if HasProp(props, key) then FromProps(PropValue(props, key))
    else if key == "$el" then El(el)
    else if key == "$slots" then SlotsObj(slots)
    else Missing
  }

  /**
   * What the proxy answers: `undefined` exactly for a key that is neither
   * in `setupState`, nor a prop, nor `$el` or `$slots`; a prop answer is the
   * value of one of the props' own entries under that key; and a
   * `setupState` key or a prop named `$el` or `$slots` shadows the public
   * property of that name.
   */
  lemma PublicGetMeaning(setupState: map<Key, Value>, props: seq<Prop>, el: Option<nat>, slots: map<Key, LibSlot>, key: Key)
    ensures var r := PublicGet(setupState, props, el, slots, key);
      && (r == Missing <==> key !in setupState && !HasProp(props, key) && key != "$el" && key != "$slots")
      && (r.FromSetup? <==> key in setupState)
      && (r.FromSetup? ==> r.v == setupState[key])
      && (r.FromProps? <==> key !in setupState && HasProp(props, key))
      && (r.FromProps? ==> exists k :: 0 <= k < |props| && props[k].key == key && r.v == props[k].value)
      && (r.El? <==> key == "$el" && key !in setupState && !HasProp(props, key))
      && (r.El? ==> r.el == el)
      && (r.SlotsObj? <==> key == "$slots" && key !in setupState && !HasProp(props, key))
      && (r.SlotsObj? ==> r.slots == slots)
  {
    if key !in setupState && HasProp(props, key) {
      PropFound(props, key);
    }
  }

  /** A prop found by the proxy is the prop's own value: `PropValue` reads the first matching entry. */
  lemma {:induction false} PropFound(props: seq<Prop>, key: Key)
    requires HasProp(props, key)
    ensures exists k :: 0 <= k < |props| && props[k].key == key && PropValue(props, key) == props[k].value
  {
    if props[0].key != key {
      var k :| 0 <= k < |props| && props[k].key == key;
      assert props[1..][k - 1].key == key;
      PropFound(props[1..], key);
      var k' :| 0 <= k' < |props[1..]| && props[1..][k'].key == key && PropValue(props[1..], key) == props[1..][k'].value;
      assert props[k' + 1] == props[1..][k'];
    }
  }

  /** The instances and provides objects of a running app, changed in place by `provide`. */
  class ComponentStore {
    var comps: seq<Instance>
    var arena: seq<ProvidesObj>

    function S(): Store
      reads this
    {
      Store(comps, arena)
    }

    constructor ()
      ensures comps == [] && arena == []
    {
      comps := [];
      arena := [];
    }

    /** `createComponentInstance(vnode, parent)`, appended as instance `r`. */
    method CreateComponentInstance(vnode: VNode, parent: Option<nat>) returns (r: nat)
      requires StoreOk(comps, arena) && (parent.Some? ==> parent.value < |comps|)
      modifies this
      ensures r == old(|comps|) && StoreOk(comps, arena)
      ensures var made := CreateInstanceS(old(comps), old(arena), vnode, parent);
        comps == old(comps) + [made.0] && arena == made.1
    {
      var made := CreateInstanceS(comps, arena, vnode, parent);
      r := |comps|;
      comps := comps + [made.0];
      arena := made.1;
    }

    /** `provide(key, value)`: copy on the first write, then set the key. */
    method Provide(current: Option<nat>, key: Key, value: Value) returns (ok: bool)
      requires StoreOk(comps, arena) && (current.Some? ==> current.value < |comps|)
      modifies this
      ensures ok <==> ProvideS(old(S()), current, key, value).Ok?
      ensures ok ==> S() == ProvideS(old(S()), current, key, value).value
      ensures !ok ==> S() == old(S())
      ensures StoreOk(comps, arena)
    {
      if current.None? {
        return true;
      }
      var inst := comps[current.value];
      if inst.parent.None? {
        return false;
      }
      var parentProvides := comps[inst.parent.value].providesId;
      var providesId := inst.providesId;
      if providesId == parentProvides {
        providesId := |arena|;
        arena := arena + [ProvidesObj(map[], Some(parentProvides))];
        comps := comps[current.value := inst.(providesId := providesId)];
      }
      arena := arena[providesId := arena[providesId].(own := arena[providesId].own[key := value])];
      ok := true;
    }
  }
}
