/**
 * Virtual nodes of lib/x-mini-vue.cjs.js:5-41: `createVNode`, its shape
 * flags, `createTextVNode` and `h`.
 *
 * A vnode's `el` is written by the renderer after creation; it lives in the
 * renderer's state (vnode id -> host node), so a new vnode has none, which is
 * JavaScript's `el: null`. The identity of a vnode object and of a props
 * object is an explicit id.
 */
module VNodes {
  import opened Values

  /** The `ShapeFlags` bits. */
  type ShapeFlag = bv8

  const ELEMENT: ShapeFlag := 1
  const STATEFUL_COMPONENT: ShapeFlag := 2
  const TEXT_CHILDREN: ShapeFlag := 4
  const ARRAY_CHILDREN: ShapeFlag := 8
  const SLOT_CHILDREN: ShapeFlag := 16

  function Has(flag: ShapeFlag, bit: ShapeFlag): bool
  {
    flag & bit != 0
  }

  /** One own enumerable property of a props object. */
  datatype Prop = Prop(key: Key, value: Value)

  /** A props object: its identity and its entries in `for...in` order. */
  datatype PropsObj = PropsObj(id: nat, entries: seq<Prop>)

  /** The `props` argument: `undefined`, `null` or an object. */
  datatype PropsArg = PUndefined | PNull | PObj(obj: PropsObj)

  /** `type`: a tag name, a component object, or the `Fragment`/`Text` symbols. */
  datatype VType = Tag(name: string) | Comp(c: Component) | FragmentSym | TextSym

  /**
   * A component object. Its `render` (user code) is represented by the tree
   * it returns on the first render.
   */
  datatype Component = Component(name: string, render: VNode)

  /**
   * The JavaScript values that travel as `children`, slot contents and slot
   * results: a primitive or opaque value, a vnode, an array, or a plain
   * object literal (the object of named slots).
   */
  datatype Js = Prim(v: Value) | Node(n: VNode) | Arr(items: seq<Js>) | Slots(entries: seq<SlotEntry>)

  /** One property of a plain object literal: a slot name and its value. */
  datatype SlotEntry = SlotEntry(name: Key, value: Js)

  datatype VNode = VNode(id: nat, vtype: VType, props: PropsArg, children: Js, key: Value, shapeFlag: ShapeFlag)

  /** `typeof j === "string"`. */
  predicate IsString(j: Js)
  {
    j.Prim? && j.v.Str?
  }

  /** `typeof j === "object"`: `null`, objects, vnodes, arrays and object literals. */
  predicate IsObjectJs(j: Js)
  {
    match j
    case Prim(v) => v == Null || v.Obj?
    case _ => true
  }

  /** `typeof j === "function"`. */
  predicate IsFunction(j: Js)
  {
    j.Prim? && j.v.Func?
  }

  /** JavaScript truthiness: every object is truthy. */
  predicate TruthyJs(j: Js)
  {
    j.Prim? ==> Truthy(j.v)
  }

  /** The value of an own property of a props object, `undefined` when missing. */
  function PropValue(entries: seq<Prop>, k: Key): Value
  {
    if entries == [] then Undefined
    else if entries[0].key == k then entries[0].value
    else PropValue(entries[1..], k)
  }

  /** `props && props.key`. */
  function KeyOf(props: PropsArg): Value
  {
    match props
    case PUndefined => Undefined
    case PNull => Null
    case PObj(o) => PropValue(o.entries, "key")
  }

  /** `getShapeFlag(type)`: a string type is an element, anything else a stateful component. */
  function GetShapeFlag(vtype: VType): ShapeFlag
  {
    if vtype.Tag? then ELEMENT else STATEFUL_COMPONENT
  }

  /** The flag `createVNode` computes: the type's base, then the children's bits. */
  function ShapeFlagOf(vtype: VType, children: Js): ShapeFlag
  {
    var base := GetShapeFlag(vtype);
    var withChildren :=
      if IsString(children) then base | TEXT_CHILDREN
      else if children.Arr? then base | ARRAY_CHILDREN
      else base;
    if Has(withChildren, STATEFUL_COMPONENT) && IsObjectJs(children) then withChildren | SLOT_CHILDREN
    else withChildren
  }

  /** `createVNode(type, props, children)`, `id` naming the new object. */
  function CreateVNode(id: nat, vtype: VType, props: PropsArg, children: Js): (v: VNode)
    ensures v.id == id && v.vtype == vtype && v.props == props && v.children == children
    ensures v.key == KeyOf(props)
  {
    VNode(id, vtype, props, children, KeyOf(props), ShapeFlagOf(vtype, children))
  }

  /**
   * Each bit of the flag means one thing: an element iff the type is a
   * string, else a stateful component (the `Fragment` and `Text` symbols
   * included); text children iff a string; array children iff an array;
   * slot children iff a component whose children are any object, arrays and
   * `null` included.
   */
  lemma ShapeFlagBits(id: nat, vtype: VType, props: PropsArg, children: Js)
    ensures var f := CreateVNode(id, vtype, props, children).shapeFlag;
      && (Has(f, ELEMENT) <==> vtype.Tag?)
      && (Has(f, STATEFUL_COMPONENT) <==> !vtype.Tag?)
      && (Has(f, TEXT_CHILDREN) <==> IsString(children))
      && (Has(f, ARRAY_CHILDREN) <==> children.Arr?)
      && (Has(f, SLOT_CHILDREN) <==> !vtype.Tag? && IsObjectJs(children))
      && f & 0xE0 == 0
  {
  }

  /** `h` is `createVNode`. */
  function H(id: nat, vtype: VType, props: PropsArg, children: Js): (v: VNode)
    ensures v.id == id && v.vtype == vtype && v.props == props && v.children == children
    ensures v.key == KeyOf(props) && v.shapeFlag == ShapeFlagOf(vtype, children)
  {
    CreateVNode(id, vtype, props, children)
  }

  /** `createTextVNode(text)`: a `Text` vnode over a new empty props object. */
  function CreateTextVNode(id: nat, propsId: nat, text: string): (v: VNode)
    ensures v.vtype == TextSym && v.children == Prim(Str(text)) && v.key == Undefined
    ensures v.shapeFlag == STATEFUL_COMPONENT | TEXT_CHILDREN
  {
    CreateVNode(id, TextSym, PObj(PropsObj(propsId, [])), Prim(Str(text)))
  }
}
