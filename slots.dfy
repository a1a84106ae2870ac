/**
 * Slots: `renderSlots`, `initSlots`, `normalizeObjectSlots` and
 * `normalizeSlotValue` of lib/x-mini-vue.cjs.js:43-55, 289-349, and the
 * early `renderSlots` (src/runtime-core/helpers/renderSlots.ts) and
 * `initSlots` (src/runtime-core/componentSlots.ts).
 *
 * Slot functions are user code: a call `f(props)` is the parameter
 * `call(f, props)`.
 */
module Slots {
  import opened Values
  import opened Wrappers
  import opened VNodes

  /** `normalizeSlotValue(value)`: an array stays, anything else becomes a one-element array. */
  function NormalizeSlotValue(v: Js): (r: Js)
    ensures r.Arr?
  {
    if v.Arr? then v else Arr([v])
  }

  /**
   * A property of the slots object lib's `initSlots` fills: a value stored
   * as it is (the default slot), or the function
   * `(props) => normalizeSlotValue(source(props))` built around a property
   * of the children object.
   */
  datatype LibSlot = Stored(value: Js) | Normalizing(source: Js)

  /** The name of the last entry wins, as repeated assignments do. */
  function LastWith(entries: seq<SlotEntry>, name: Key): Option<Js>
  {
    if entries == [] then None
    else if entries[|entries| - 1].name == name then Some(entries[|entries| - 1].value)
    else LastWith(entries[..|entries| - 1], name)
  }

  predicate Named(entries: seq<SlotEntry>, name: Key)
  {
    exists k :: 0 <= k < |entries| && entries[k].name == name
  }

  /** `normalizeObjectSlots(children, slots)`: the `for...in` loop, as a fold over the entries. */
  function NormalizeObjectSlotsS(entries: seq<SlotEntry>, slots: map<Key, LibSlot>): map<Key, LibSlot>
  {
    if entries == [] then slots
    else
      var last := entries[|entries| - 1];
      NormalizeObjectSlotsS(entries[..|entries| - 1], slots)[last.name := Normalizing(last.value)]
  }

  /**
   * Every property of the children object becomes a normalizing slot around
   * its value; any other slot is left as it was.
   */
  lemma {:induction false} NormalizeObjectSlotsFacts(entries: seq<SlotEntry>, slots: map<Key, LibSlot>)
    ensures var r := NormalizeObjectSlotsS(entries, slots);
      forall name ::
        && (name in r <==> name in slots || LastWith(entries, name).Some?)
        && (LastWith(entries, name).Some? ==> r[name] == Normalizing(LastWith(entries, name).value))
        && (LastWith(entries, name).None? && name in slots ==> r[name] == slots[name])
  {
    if entries != [] {
      NormalizeObjectSlotsFacts(entries[..|entries| - 1], slots);
    }
  }

  /** `LastWith` finds exactly the names that occur. */
  lemma {:induction false} LastWithNamed(entries: seq<SlotEntry>, name: Key)
    ensures LastWith(entries, name).Some? <==> Named(entries, name)
  {
    if entries != [] {
      var init := entries[..|entries| - 1];
      LastWithNamed(init, name);
      if Named(entries, name) && entries[|entries| - 1].name != name {
        var k :| 0 <= k < |entries| && entries[k].name == name;
        assert init[k].name == name;
      }
      if Named(init, name) {
        var k :| 0 <= k < |init| && init[k].name == name;
        assert entries[k].name == name;
      }
    }
  }

  /**
   * `initSlots(instance, children)` on the instance's slots object, only
   * when the vnode carries SLOT_CHILDREN: a vnode becomes the default slot
   * `[children]`, as does an object literal whose own `shapeFlag` property
   * is truthy; an array becomes the default slot itself, and any other
   * object literal is normalized property by property. Reading `shapeFlag`
   * of `null` or `undefined` throws.
   */
  function InitSlotsS(flag: ShapeFlag, children: Js, slots: map<Key, LibSlot>): Result<map<Key, LibSlot>>
  {
    if !Has(flag, SLOT_CHILDREN) then Ok(slots)
    else if children == Prim(Null) || children == Prim(Undefined) then TypeError
    else if children.Node? || HasTruthyShapeFlag(children) then Ok(slots["default" := Stored(Arr([children]))])
    else if children.Arr? then Ok(slots["default" := Stored(children)])
    else if children.Slots? then Ok(NormalizeObjectSlotsS(children.entries, slots))
    else Ok(slots)
  }

  /** `children.shapeFlag` is truthy for an object literal that owns such a property. */
  predicate HasTruthyShapeFlag(children: Js)
  {
    children.Slots? && LastWith(children.entries, "shapeFlag").Some? && TruthyJs(LastWith(children.entries, "shapeFlag").value)
  }

  /** The forms of slot children a component vnode can carry, and the crash on `null`. */
  lemma InitSlotsForms(vtype: VType, children: Js, slots: map<Key, LibSlot>)
    requires !vtype.Tag?
    ensures var r := InitSlotsS(ShapeFlagOf(vtype, children), children, slots);
      && (children.Node? ==> r == Ok(slots["default" := Stored(Arr([children]))]))
      && (children.Arr? ==> r == Ok(slots["default" := Stored(children)]))
      && (HasTruthyShapeFlag(children) ==> r == Ok(slots["default" := Stored(Arr([children]))]))
      && (children.Slots? && !HasTruthyShapeFlag(children) ==> r == Ok(NormalizeObjectSlotsS(children.entries, slots)))
      && (children == Prim(Null) ==> r == TypeError)
      && (!IsObjectJs(children) ==> r == Ok(slots))
  {
    ShapeFlagBits(0, vtype, PUndefined, children);
  }

  /** The instance's `slots` object, filled in place. */
  class SlotsObject {
    var slots: map<Key, LibSlot>

    /** The `{}` of `createComponentInstance`. */
    constructor ()
      ensures slots == map[]
    {
      slots := map[];
    }

    method NormalizeObjectSlots(entries: seq<SlotEntry>)
      modifies this
      ensures slots == NormalizeObjectSlotsS(entries, old(slots))
    {
      ghost var s0 := slots;
      for i := 0 to |entries|
        invariant slots == NormalizeObjectSlotsS(entries[..i], s0)
      {
        assert entries[..i + 1][..i] == entries[..i];
        slots := slots[entries[i].name := Normalizing(entries[i].value)];
      }
      assert entries[..|entries|] == entries;
    }

    /** `initSlots`; `ok` is false where the source throws, and then nothing has changed. */
    method InitSlots(flag: ShapeFlag, children: Js) returns (ok: bool)
      modifies this
      ensures ok <==> InitSlotsS(flag, children, old(slots)).Ok?
      ensures ok ==> slots == InitSlotsS(flag, children, old(slots)).value
      ensures !ok ==> slots == old(slots)
    {
      if !Has(flag, SLOT_CHILDREN) {
        return true;
      }
      if children == Prim(Null) || children == Prim(Undefined) {
        return false;
      }
      if children.Node? || HasTruthyShapeFlag(children) {
        slots := slots["default" := Stored(Arr([children]))];
        return true;
      }
      if children.Arr? {
        slots := slots["default" := Stored(children)];
        return true;
      }
      if children.Slots? {
        NormalizeObjectSlots(children.entries);
      }
      ok := true;
    }
  }

  /** `name = 'default'`. */
  function SlotName(name: Option<Key>): Key
  {
    if name.Some? then name.value else "default"
  }

  /**
   * lib `renderSlots(slots, name, props)`: a function slot renders a
   * `Fragment` over its result, an array slot a `Fragment` over the array;
   * a missing, falsy or other slot gives `undefined`. A normalizing slot
   * whose source is not a function throws when called.
   */
  function RenderSlots(slots: map<Key, LibSlot>, name: Option<Key>, props: Js, call: (nat, Js) -> Js, id: nat, propsId: nat): (r: Result<Option<VNode>>)
    ensures SlotName(name) !in slots ==> r == Ok(None)
    ensures r.Ok? && r.value.Some? ==> r.value.value.vtype == FragmentSym && r.value.value.id == id
    ensures SlotName(name) in slots && slots[SlotName(name)].Normalizing? ==>
      var src := slots[SlotName(name)].source;
      && (IsFunction(src) ==> r.Ok? && r.value.Some? && r.value.value.children == NormalizeSlotValue(call(src.v.fn, props)))
      && (!IsFunction(src) ==> r == TypeError)
    ensures SlotName(name) in slots && slots[SlotName(name)].Stored? ==>
      var v := slots[SlotName(name)].value;
      && (v.Arr? ==> r.Ok? && r.value.Some? && r.value.value.children == v)
      && (IsFunction(v) ==> r.Ok? && r.value.Some? && r.value.value.children == call(v.v.fn, props))
      && (!v.Arr? && !IsFunction(v) ==> r == Ok(None))
  {
    var key := SlotName(name);
    var empty := PObj(PropsObj(propsId, []));
    if key !in slots then Ok(None)
    else match slots[key]
      case Normalizing(src) =>
        if IsFunction(src) then Ok(Some(CreateVNode(id, FragmentSym, empty, NormalizeSlotValue(call(src.v.fn, props)))))
        else TypeError
      case Stored(v) =>
        if !TruthyJs(v) then Ok(None)
        else if IsFunction(v) then Ok(Some(CreateVNode(id, FragmentSym, empty, call(v.v.fn, props))))
        else if v.Arr? then Ok(Some(CreateVNode(id, FragmentSym, empty, v)))
        else Ok(None)
  }

  /**
   * Slots built by `initSlots` from an object literal render their
   * function's result as an array: a named slot `f` renders a `Fragment`
   * over `normalizeSlotValue(f(props))`.
   */
  lemma NamedSlotRenders(entries: seq<SlotEntry>, name: Key, props: Js, call: (nat, Js) -> Js, id: nat, propsId: nat)
    requires LastWith(entries, name).Some? && IsFunction(LastWith(entries, name).value)
    ensures var slots := NormalizeObjectSlotsS(entries, map[]);
      var r := RenderSlots(slots, Some(name), props, call, id, propsId);
      && r.Ok? && r.value.Some?
      && r.value.value.children == NormalizeSlotValue(call(LastWith(entries, name).value.v.fn, props))
      && r.value.value.shapeFlag == STATEFUL_COMPONENT | ARRAY_CHILDREN | SLOT_CHILDREN
  {
    NormalizeObjectSlotsFacts(entries, map[]);
  }

  /** The early `renderSlots`: the same choice, rendered into a "div" element. */
  function EarlyRenderSlots(slots: map<Key, Js>, name: Option<Key>, props: Js, call: (nat, Js) -> Js, id: nat, propsId: nat): (r: Option<VNode>)
    ensures SlotName(name) !in slots ==> r == None
    ensures r.Some? ==> r.value.vtype == Tag("div") && r.value.id == id && Has(r.value.shapeFlag, ELEMENT)
    ensures SlotName(name) in slots ==>
      var v := slots[SlotName(name)];
      && (IsFunction(v) ==> r.Some? && r.value.children == call(v.v.fn, props))
      && (v.Arr? ==> r.Some? && r.value.children == v && Has(r.value.shapeFlag, ARRAY_CHILDREN))
      && (!IsFunction(v) && !v.Arr? ==> r == None)
  {
    var key := SlotName(name);
    var empty := PObj(PropsObj(propsId, []));
    if key !in slots then None
    else
      var v := slots[key];
      ShapeFlagBits(id, Tag("div"), empty, v);
      if !TruthyJs(v) then None
      else if IsFunction(v) then Some(CreateVNode(id, Tag("div"), empty, call(v.v.fn, props)))
      else if v.Arr? then Some(CreateVNode(id, Tag("div"), empty, v))
      else None
  }

  /** The early `initSlots` loop, as a fold over the properties of `children`. */
  function EarlySlotsS(entries: seq<SlotEntry>): map<Key, Js>
  {
    if entries == [] then map[]
    else
      var last := entries[|entries| - 1];
      EarlySlotsS(entries[..|entries| - 1])[last.name := NormalizeSlotValue(last.value)]
  }

  /**
   * The new slots object has exactly one property per enumerated key of
   * `children`; an array value is kept, any other value is wrapped in a
   * one-element array.
   */
  lemma {:induction false} EarlySlotsFacts(entries: seq<SlotEntry>)
    ensures var r := EarlySlotsS(entries);
      forall name ::
        && (name in r <==> Named(entries, name))
        && (LastWith(entries, name).Some? ==> name in r && r[name] == NormalizeSlotValue(LastWith(entries, name).value))
  {
    EarlySlotsByLast(entries);
    forall name ensures LastWith(entries, name).Some? <==> Named(entries, name) {
      LastWithNamed(entries, name);
    }
  }

  lemma {:induction false} EarlySlotsByLast(entries: seq<SlotEntry>)
    ensures var r := EarlySlotsS(entries);
      forall name ::
        && (name in r <==> LastWith(entries, name).Some?)
        && (LastWith(entries, name).Some? ==> r[name] == NormalizeSlotValue(LastWith(entries, name).value))
  {
    if entries != [] {
      EarlySlotsByLast(entries[..|entries| - 1]);
    }
  }

  /** The early component instance, as far as `initSlots` touches it. */
  class EarlyInstance {
    var slots: map<Key, Js>

    constructor ()
      ensures slots == map[]
    {
      slots := map[];
    }

    /** `initSlots(instance, children)`, `entries` being the `for...in` enumeration of `children`. */
    method InitSlots(entries: seq<SlotEntry>)
      modifies this
      ensures slots == EarlySlotsS(entries)
    {
      var built: map<Key, Js> := map[];
      for i := 0 to |entries|
        invariant built == EarlySlotsS(entries[..i])
      {
        assert entries[..i + 1][..i] == entries[..i];
        var value := entries[i].value;
        built := built[entries[i].name := if value.Arr? then value else Arr([value])];
      }
      assert entries[..|entries|] == entries;
      slots := built;
    }
  }
}
