/**
 * The reconciler of lib/x-mini-vue.cjs.js:446-683 (`createRenderer`) over an
 * abstract host: every host call is recorded in a trace, host nodes are
 * numbers handed out in order, and a vnode's `el` is an entry of the map
 * `els` keyed by the vnode's id (no entry is `null`).
 *
 * Each operation is first a function from the renderer state to the new
 * state; the class `Renderer` at the end runs the same operations in place,
 * with the source's loops, and is proved to produce exactly those states.
 *
 * The trees handed to the renderer are those `createVNode` builds
 * (`Mountable`); patching also needs every element on both sides to have
 * string or array children (`Patchable`), because `patchChildren` reads
 * `.length` of, or calls `forEach` on, missing children and throws.
 */
module Renderer {
  import opened Values
  import opened Wrappers
  import opened VNodes
  import opened Slots
  import opened Components

  /** A call into the host: the options given to `createRenderer`, and the DOM calls `processText` makes. */
  datatype HostOp =
    | CreateElement(node: nat, tag: string)
    | CreateText(node: nat, text: string)
    | Append(parent: Option<nat>, child: nat)
    | PatchProp(el: Option<nat>, key: Key, prev: Value, next: Value)
    | Insert(child: nat, parent: Option<nat>, anchor: Option<nat>)
    | Remove(target: Option<nat>)
    // `hostSetElementText`, and also `mountElement`'s direct `el.textContent = children`, which has the same effect
    | SetElementText(el: Option<nat>, text: string)

  /** The trace of host calls, the next host node, each vnode's `el`, the instances and their provides objects. */
  datatype RState = RState(trace: seq<HostOp>, next: nat, els: map<nat, nat>, comps: seq<Instance>, arena: seq<ProvidesObj>)

  /** The number of vnodes in a tree, counting each component's rendered tree. */
  function Size(v: VNode): nat
    decreases v
  {
    1 + JsSize(v.children) + (if v.vtype.Comp? then Size(v.vtype.c.render) else 0)
  }

  function JsSize(j: Js): nat
    decreases j
  {
    match j
    case Prim(_) => 0
    case Node(n) => Size(n)
    case Arr(items) => SeqSize(items)
    case Slots(entries) => EntriesSize(entries)
  }

  function SeqSize(s: seq<Js>): nat
    decreases s
  {
    if s == [] then 0 else SeqSize(s[..|s| - 1]) + JsSize(s[|s| - 1])
  }

  function EntriesSize(es: seq<SlotEntry>): nat
    decreases es
  {
    if es == [] then 0 else EntriesSize(es[..|es| - 1]) + JsSize(es[|es| - 1].value)
  }

  lemma {:induction false} SeqSizeItem(s: seq<Js>, i: nat)
    requires i < |s|
    ensures JsSize(s[i]) <= SeqSize(s)
  {
    if i < |s| - 1 {
      SeqSizeItem(s[..|s| - 1], i);
    }
  }

  /** A tree `createVNode` built, whose mounting does not throw. */
  predicate Mountable(v: VNode)
    decreases v
  {
    && v.shapeFlag == ShapeFlagOf(v.vtype, v.children)
    && match v.vtype
       case Tag(_) => v.children.Arr? ==> AllMountable(v.children.items)
       case FragmentSym => v.children.Arr? && AllMountable(v.children.items)
       case TextSym => IsString(v.children)
       case Comp(c) => v.children != Prim(Null) && Mountable(c.render)
  }

  predicate MountableJs(j: Js)
    requires j.Node?
    decreases j
  {
    Mountable(j.n)
  }

  predicate AllMountable(items: seq<Js>)
    decreases items
  {
    forall i | 0 <= i < |items| :: items[i].Node? && MountableJs(items[i])
  }

  /** A mountable tree whose elements all have string or array children. */
  predicate Patchable(v: VNode)
    decreases v
  {
    && Mountable(v)
    && (v.vtype.Tag? ==>
          && (IsString(v.children) || v.children.Arr?)
          && (v.children.Arr? ==> AllPatchable(v.children.items)))
  }

  lemma MountableItem(items: seq<Js>, i: nat)
    requires AllMountable(items) && i < |items|
    ensures items[i].Node? && Mountable(items[i].n)
  {
    assert MountableJs(items[i]);
  }

  predicate PatchableJs(j: Js)
    requires j.Node?
    decreases j
  {
    Patchable(j.n)
  }

  predicate AllPatchable(items: seq<Js>)
    decreases items
  {
    forall i | 0 <= i < |items| :: items[i].Node? && PatchableJs(items[i])
  }

  /** Patchable children are mountable children. */
  lemma PatchableItems(items: seq<Js>)
    requires AllPatchable(items)
    ensures AllMountable(items)
    ensures forall i | 0 <= i < |items| :: items[i].Node? && Patchable(items[i].n) && Mountable(items[i].n)
  {
    forall i | 0 <= i < |items|
      ensures items[i].Node? && Patchable(items[i].n) && Mountable(items[i].n) && MountableJs(items[i])
    {
      assert PatchableJs(items[i]);
    }
  }

  lemma PatchableChildren(v: VNode)
    requires Patchable(v) && v.vtype.Tag?
    ensures v.children.Arr? ==> AllMountable(v.children.items) && AllPatchable(v.children.items)
  {
    if v.children.Arr? {
      PatchableItems(v.children.items);
    }
  }

  /** A vnode is larger than its array of children and than its component's rendered tree. */
  lemma SizeParts(v: VNode)
    ensures v.children.Arr? ==> SeqSize(v.children.items) < Size(v)
    ensures v.vtype.Comp? ==> Size(v.vtype.c.render) < Size(v)
  {
  }

  /** The last child is smaller than the whole array, and so is the rest. */
  lemma SeqSizeLast(items: seq<Js>)
    requires items != [] && items[|items| - 1].Node?
    ensures Size(items[|items| - 1].n) <= SeqSize(items)
    ensures SeqSize(items[..|items| - 1]) < SeqSize(items)
  {
  }

  /** What `patch(n1, n2, ...)` needs: a mountable new tree, and two patchable elements when an element is patched. */
  predicate PatchPair(n1: Option<VNode>, n2: VNode)
  {
    && Mountable(n2)
    && (n1.Some? && n2.vtype.Tag? ==> n1.value.vtype.Tag? && Patchable(n1.value) && Patchable(n2))
  }

  predicate ParentOk(st: RState, parent: Option<nat>)
  {
    parent.Some? ==> parent.value < |st.comps|
  }

  /** The trace only grows, host nodes are never reused, and existing instances stay as they are. */
  predicate Grows(st: RState, r: RState)
  {
    st.trace <= r.trace && st.next <= r.next && st.comps <= r.comps
  }

  /** The shape flag of a `createVNode` tree says what its type and children are. */
  lemma FlagKinds(v: VNode)
    requires v.shapeFlag == ShapeFlagOf(v.vtype, v.children)
    ensures Has(v.shapeFlag, ELEMENT) <==> v.vtype.Tag?
    ensures Has(v.shapeFlag, STATEFUL_COMPONENT) <==> !v.vtype.Tag?
    ensures Has(v.shapeFlag, TEXT_CHILDREN) <==> IsString(v.children)
    ensures Has(v.shapeFlag, ARRAY_CHILDREN) <==> v.children.Arr?
    ensures Has(v.shapeFlag, SLOT_CHILDREN) <==> !v.vtype.Tag? && IsObjectJs(v.children)
  {
    ShapeFlagBits(v.id, v.vtype, v.props, v.children);
  }

  /** `vnode.el`. */
  function ElOf(st: RState, v: VNode): Option<nat>
  {
    if v.id in st.els then Some(st.els[v.id]) else None
  }

  /** `vnode.el = el`. */
  function SetEl(els: map<nat, nat>, id: nat, el: Option<nat>): map<nat, nat>
  {
    if el.Some? then els[id := el.value] else els - {id}
  }

  /**
   * `isSomeVNodeType`: same type and same key. Component objects are
   * compared as values here, where the source compares their identity.
   */
  predicate SameType(a: VNode, b: VNode)
  {
    a.vtype == b.vtype && a.key == b.key
  }

  /** `props || EMPTY_OBJ`: a props object, or the one shared empty object. */
  datatype PropsRef = EmptyObj | UserObj(obj: PropsObj)

  function PropsRefOf(p: PropsArg): PropsRef
  {
    if p.PObj? then UserObj(p.obj) else EmptyObj
  }

  function Entries(p: PropsRef): seq<Prop>
  {
    if p.UserObj? then p.obj.entries else []
  }

  /** `oldProps === newProps`. */
  predicate SameObject(a: PropsRef, b: PropsRef)
  {
    (a.EmptyObj? && b.EmptyObj?) || (a.UserObj? && b.UserObj? && a.obj.id == b.obj.id)
  }

  /** The `hostPatchProp(el, key, null, val)` calls of `mountElement`, in `for...in` order. */
  function MountPropOps(el: nat, entries: seq<Prop>): seq<HostOp>
  {
    if entries == [] then []
    else MountPropOps(el, entries[..|entries| - 1]) + [PatchProp(Some(el), entries[|entries| - 1].key, Null, entries[|entries| - 1].value)]
  }

  /** The first loop of `patchProps`: a call for each new key whose value differs from the old one. */
  function ChangedOps(el: Option<nat>, oldE: seq<Prop>, newE: seq<Prop>): seq<HostOp>
  {
    if newE == [] then []
    else
      var p := newE[|newE| - 1];
      var prev := PropValue(oldE, p.key);
      ChangedOps(el, oldE, newE[..|newE| - 1]) + (if prev != p.value then [PatchProp(el, p.key, prev, p.value)] else [])
  }

  /** The second loop of `patchProps`: a call with `null` for each old key the new props lack. */
  function RemovedOps(el: Option<nat>, oldE: seq<Prop>, newE: seq<Prop>): seq<HostOp>
  {
    if oldE == [] then []
    else
      var p := oldE[|oldE| - 1];
      RemovedOps(el, oldE[..|oldE| - 1], newE) + (if !HasProp(newE, p.key) then [PatchProp(el, p.key, p.value, Null)] else [])
  }

  /** `patchProps(el, oldProps, newProps)`. */
  function PatchPropsS(st: RState, el: Option<nat>, oldP: PropsRef, newP: PropsRef): (r: RState)
    ensures Grows(st, r) && r.els == st.els && r.next == st.next
  {
    if SameObject(oldP, newP) then st
    else
      var removed := if !oldP.EmptyObj? then RemovedOps(el, Entries(oldP), Entries(newP)) else [];
      st.(trace := st.trace + ChangedOps(el, Entries(oldP), Entries(newP)) + removed)
  }

  /** The `hostRemove(child.el)` calls of `unmountChildren`, in order. */
  function RemoveOps(st: RState, items: seq<Js>): seq<HostOp>
    requires forall i | 0 <= i < |items| :: items[i].Node?
  {
    if items == [] then []
    else RemoveOps(st, items[..|items| - 1]) + [Remove(ElOf(st, items[|items| - 1].n))]
  }

  /** `processText`: a new text node appended to the container, recorded as the vnode's `el`. */
  function ProcessTextS(st: RState, n2: VNode, container: Option<nat>): (r: RState)
    requires IsString(n2.children)
    ensures Grows(st, r)
  {
    var node := st.next;
    st.(trace := st.trace + [CreateText(node, n2.children.v.s), Append(container, node)],
        next := st.next + 1,
        els := st.els[n2.id := node])
  }

  /**
   * `patch(n1, n2, container, parentComponent, anchor)`: `Fragment` and
   * `Text` by type, then ELEMENT, then STATEFUL_COMPONENT by flag. Only
   * elements look at `n1`; fragments, text and components are mounted
   * afresh.
   */
  function PatchS(st: RState, n1: Option<VNode>, n2: VNode, container: Option<nat>, parent: Option<nat>, anchor: Option<nat>): (r: RState)
    requires PatchPair(n1, n2) && ParentOk(st, parent)
    ensures Grows(st, r)
    decreases Size(n2), 5
  {
    FlagKinds(n2);
    SizeParts(n2);
    if n2.vtype == FragmentSym then MountChildrenS(st, n2.children.items, container, parent, anchor)
    else if n2.vtype == TextSym then ProcessTextS(st, n2, container)
    else if Has(n2.shapeFlag, ELEMENT) then ProcessElementS(st, n1, n2, container, parent, anchor)
    else if Has(n2.shapeFlag, STATEFUL_COMPONENT) then MountComponentS(st, n2, container, parent, anchor)
    else st
  }

  /** `mountChildren(children, container, parentComponent, anchor)`: every child patched against `null`, in order. */
  function MountChildrenS(st: RState, items: seq<Js>, container: Option<nat>, parent: Option<nat>, anchor: Option<nat>): (r: RState)
    requires AllMountable(items) && ParentOk(st, parent)
    ensures Grows(st, r)
    decreases SeqSize(items), 6
  {
    if items == [] then st
    else
      SeqSizeLast(items);
      MountableItem(items, |items| - 1);
      var mid := MountChildrenS(st, items[..|items| - 1], container, parent, anchor);
      PatchS(mid, None, items[|items| - 1].n, container, parent, anchor)
  }

  /** `processElement`: mount without `n1`, patch with it. */
  function ProcessElementS(st: RState, n1: Option<VNode>, n2: VNode, container: Option<nat>, parent: Option<nat>, anchor: Option<nat>): (r: RState)
    requires n2.vtype.Tag? && PatchPair(n1, n2) && ParentOk(st, parent)
    ensures Grows(st, r)
    decreases Size(n2), 4
  {
    if n1.None? then MountElementS(st, n2, container, parent, anchor)
    else PatchElementS(st, n1.value, n2, parent, anchor)
  }

  /**
   * `mountElement`: create the element and record it as `vnode.el`, set its
   * text or mount its children into it (passing the caller's anchor on),
   * patch each prop from `null`, and insert it before the anchor.
   */
  function MountElementS(st: RState, v: VNode, container: Option<nat>, parent: Option<nat>, anchor: Option<nat>): (r: RState)
    requires v.vtype.Tag? && Mountable(v) && ParentOk(st, parent)
    ensures Grows(st, r)
    decreases Size(v), 3
  {
    FlagKinds(v);
    SizeParts(v);
    var el := st.next;
    var s1 := st.(trace := st.trace + [CreateElement(el, v.vtype.name)], next := st.next + 1, els := st.els[v.id := el]);
    var s2 := ElementContentS(s1, v, el, parent, anchor);
    s2.(trace := s2.trace + MountPropOps(el, PropsEntries(v.props)) + [Insert(el, container, anchor)])
  }

  /** The content step of `mountElement`: set the text, or mount the children into the new node. */
  function ElementContentS(s1: RState, v: VNode, el: nat, parent: Option<nat>, anchor: Option<nat>): (r: RState)
    requires v.vtype.Tag? && Mountable(v) && ParentOk(s1, parent)
    ensures Grows(s1, r)
    decreases Size(v), 2
  {
    FlagKinds(v);
    SizeParts(v);
    if Has(v.shapeFlag, TEXT_CHILDREN) then s1.(trace := s1.trace + [SetElementText(Some(el), v.children.v.s)])
    else if Has(v.shapeFlag, ARRAY_CHILDREN) then MountChildrenS(s1, v.children.items, Some(el), parent, anchor)
    else s1
  }

  /** `patchElement`: `n2.el = n1.el`, then the children, then the props. */
  function PatchElementS(st: RState, n1: VNode, n2: VNode, parent: Option<nat>, anchor: Option<nat>): (r: RState)
    requires n1.vtype.Tag? && n2.vtype.Tag? && Patchable(n1) && Patchable(n2) && ParentOk(st, parent)
    ensures Grows(st, r)
    decreases Size(n2), 3
  {
    var el := ElOf(st, n1);
    var s1 := st.(els := SetEl(st.els, n2.id, el));
    var s2 := PatchChildrenS(s1, n1, n2, el, parent, anchor);
    PatchPropsS(s2, el, PropsRefOf(n1.props), PropsRefOf(n2.props))
  }

  /**
   * `patchChildren`: new text removes an old array's nodes and sets the
   * text if it differs; new children over old text clear the text and
   * mount them; array over array is the keyed diff.
   */
  function PatchChildrenS(st: RState, n1: VNode, n2: VNode, container: Option<nat>, parent: Option<nat>, anchor: Option<nat>): (r: RState)
    requires n1.vtype.Tag? && n2.vtype.Tag? && Patchable(n1) && Patchable(n2) && ParentOk(st, parent)
    ensures Grows(st, r)
    decreases Size(n2), 2
  {
    FlagKinds(n1);
    FlagKinds(n2);
    SizeParts(n2);
    PatchableChildren(n1);
    PatchableChildren(n2);
    if Has(n2.shapeFlag, TEXT_CHILDREN) then
      var s1 := if Has(n1.shapeFlag, ARRAY_CHILDREN) then st.(trace := st.trace + RemoveOps(st, n1.children.items)) else st;
      if n1.children != n2.children then s1.(trace := s1.trace + [SetElementText(container, n2.children.v.s)]) else s1
    else if Has(n1.shapeFlag, TEXT_CHILDREN) then
      MountChildrenS(st.(trace := st.trace + [SetElementText(container, "")]), n2.children.items, container, parent, anchor)
    else
      PatchKeyedS(st, n1.children.items, n2.children.items, container, parent, anchor)
  }

  /** Where a scan of the keyed diff stopped: the state and the three cursors. */
  datatype Scan = Scan(st: RState, i: int, e1: int, e2: int)

  /** The first loop of `patchKeyedChildren`: patch equal heads until the first mismatch. */
  function PrefixS(st: RState, c1: seq<Js>, c2: seq<Js>, i: nat, container: Option<nat>, parent: Option<nat>, anchor: Option<nat>): (r: Scan)
    requires AllPatchable(c1) && AllPatchable(c2) && i <= |c1| && i <= |c2| && ParentOk(st, parent)
    ensures Grows(st, r.st)
    ensures r.e1 == |c1| - 1 && r.e2 == |c2| - 1 && i <= r.i <= |c1| && r.i <= |c2|
    decreases SeqSize(c2), 8, |c2| - i
  {
    if i < |c1| && i < |c2| && SameType(c1[i].n, c2[i].n) then
      SeqSizeItem(c2, i);
      PatchableItems(c1);
      PatchableItems(c2);
      PrefixS(PatchS(st, Some(c1[i].n), c2[i].n, container, parent, anchor), c1, c2, i + 1, container, parent, anchor)
    else Scan(st, i, |c1| - 1, |c2| - 1)
  }

  /** The second loop: patch equal tails, moving both ends left, until a mismatch or a range is empty. */
  function SuffixS(st: RState, c1: seq<Js>, c2: seq<Js>, i: nat, e1: int, e2: int, container: Option<nat>, parent: Option<nat>, anchor: Option<nat>): (r: Scan)
    requires AllPatchable(c1) && AllPatchable(c2) && ParentOk(st, parent)
    requires -1 <= e1 < |c1| && -1 <= e2 < |c2| && i <= e1 + 1 && i <= e2 + 1 && |c1| - e1 == |c2| - e2
    ensures Grows(st, r.st)
    ensures r.i == i && -1 <= r.e1 <= e1 && e1 - r.e1 == e2 - r.e2 && i <= r.e1 + 1 && i <= r.e2 + 1
    decreases SeqSize(c2), 8, e2 + 1
  {
    if i <= e1 && i <= e2 && SameType(c1[e1].n, c2[e2].n) then
      SeqSizeItem(c2, e2);
      PatchableItems(c1);
      PatchableItems(c2);
      SuffixS(PatchS(st, Some(c1[e1].n), c2[e2].n, container, parent, anchor), c1, c2, i, e1 - 1, e2 - 1, container, parent, anchor)
    else Scan(st, i, e1, e2)
  }

  /** The prefix scan patches only pairs of the same type and key, and stops at the first other pair. */
  lemma PrefixMatches(st: RState, c1: seq<Js>, c2: seq<Js>, i: nat, container: Option<nat>, parent: Option<nat>, anchor: Option<nat>)
    requires AllPatchable(c1) && AllPatchable(c2) && i <= |c1| && i <= |c2| && ParentOk(st, parent)
    ensures var r := PrefixS(st, c1, c2, i, container, parent, anchor);
      && (forall k | i <= k < r.i :: SameType(c1[k].n, c2[k].n))
      && (r.i < |c1| && r.i < |c2| ==> !SameType(c1[r.i].n, c2[r.i].n))
  {
    PrefixEndIs(st, c1, c2, i, container, parent, anchor);
    PrefixEndMatches(c1, c2, i);
  }

  /** Where the prefix scan stops, computed from the children alone. */
  function PrefixEnd(c1: seq<Js>, c2: seq<Js>, i: nat): (f: nat)
    requires AllPatchable(c1) && AllPatchable(c2) && i <= |c1| && i <= |c2|
    ensures i <= f <= |c1| && f <= |c2|
    decreases |c2| - i
  {
    if i < |c1| && i < |c2| && SameType(c1[i].n, c2[i].n) then PrefixEnd(c1, c2, i + 1) else i
  }

  /** The prefix scan stops at `PrefixEnd`. */
  lemma {:induction false} PrefixEndIs(st: RState, c1: seq<Js>, c2: seq<Js>, i: nat, container: Option<nat>, parent: Option<nat>, anchor: Option<nat>)
    requires AllPatchable(c1) && AllPatchable(c2) && i <= |c1| && i <= |c2| && ParentOk(st, parent)
    ensures PrefixS(st, c1, c2, i, container, parent, anchor).i == PrefixEnd(c1, c2, i)
    decreases |c2| - i
  {
    if i < |c1| && i < |c2| && SameType(c1[i].n, c2[i].n) {
      PatchableItems(c1);
      PatchableItems(c2);
      PrefixStep(st, c1, c2, i, container, parent, anchor);
      PrefixEndIs(PatchS(st, Some(c1[i].n), c2[i].n, container, parent, anchor), c1, c2, i + 1, container, parent, anchor);
    } else {
      PrefixStop(st, c1, c2, i, container, parent, anchor);
    }
  }

  /** Every pair the scan passes matches, and the pair where it stops, if any, does not. */
  lemma {:induction false} PrefixEndMatches(c1: seq<Js>, c2: seq<Js>, i: nat)
    requires AllPatchable(c1) && AllPatchable(c2) && i <= |c1| && i <= |c2|
    ensures var f := PrefixEnd(c1, c2, i);
      && (forall k | i <= k < f :: SameType(c1[k].n, c2[k].n))
      && (f < |c1| && f < |c2| ==> !SameType(c1[f].n, c2[f].n))
    decreases |c2| - i
  {
    if i < |c1| && i < |c2| && SameType(c1[i].n, c2[i].n) {
      PrefixEndMatches(c1, c2, i + 1);
    }
  }

  /** One matching step of the prefix scan. */
  lemma PrefixStep(st: RState, c1: seq<Js>, c2: seq<Js>, i: nat, container: Option<nat>, parent: Option<nat>, anchor: Option<nat>)
    requires AllPatchable(c1) && AllPatchable(c2) && ParentOk(st, parent)
    requires i < |c1| && i < |c2| && SameType(c1[i].n, c2[i].n) && Patchable(c1[i].n) && Patchable(c2[i].n)
    ensures PrefixS(st, c1, c2, i, container, parent, anchor)
      == PrefixS(PatchS(st, Some(c1[i].n), c2[i].n, container, parent, anchor), c1, c2, i + 1, container, parent, anchor)
  {
  }

  /** The prefix scan stops where a list ends or the heads differ in type or key. */
  lemma PrefixStop(st: RState, c1: seq<Js>, c2: seq<Js>, i: nat, container: Option<nat>, parent: Option<nat>, anchor: Option<nat>)
    requires AllPatchable(c1) && AllPatchable(c2) && i <= |c1| && i <= |c2| && ParentOk(st, parent)
    requires !(i < |c1| && i < |c2| && SameType(c1[i].n, c2[i].n))
    ensures PrefixS(st, c1, c2, i, container, parent, anchor) == Scan(st, i, |c1| - 1, |c2| - 1)
  {
  }

  /** The suffix scan patches only pairs of the same type and key, and stops at the first other pair. */
  lemma SuffixMatches(st: RState, c1: seq<Js>, c2: seq<Js>, i: nat, e1: int, e2: int, container: Option<nat>, parent: Option<nat>, anchor: Option<nat>)
    requires AllPatchable(c1) && AllPatchable(c2) && ParentOk(st, parent)
    requires -1 <= e1 < |c1| && -1 <= e2 < |c2| && i <= e1 + 1 && i <= e2 + 1 && |c1| - e1 == |c2| - e2
    ensures var r := SuffixS(st, c1, c2, i, e1, e2, container, parent, anchor);
      && (forall k | r.e1 < k <= e1 :: SameType(c1[k].n, c2[k + (e2 - e1)].n))
      && (i <= r.e1 && i <= r.e2 ==> !SameType(c1[r.e1].n, c2[r.e2].n))
  {
    SuffixEndIs(st, c1, c2, i, e1, e2, container, parent, anchor);
    SuffixEndMatches(c1, c2, i, e1, e2);
  }

  /** Where the suffix scan stops, computed from the children alone. */
  function SuffixEnd(c1: seq<Js>, c2: seq<Js>, i: nat, e1: int, e2: int): (f: int)
    requires AllPatchable(c1) && AllPatchable(c2)
    requires -1 <= e1 < |c1| && -1 <= e2 < |c2| && i <= e1 + 1 && i <= e2 + 1 && |c1| - e1 == |c2| - e2
    ensures -1 <= f <= e1 && i <= f + 1 && i <= f + (e2 - e1) + 1
    decreases e2 + 1
  {
    if i <= e1 && i <= e2 && SameType(c1[e1].n, c2[e2].n) then SuffixEnd(c1, c2, i, e1 - 1, e2 - 1) else e1
  }

  /** The suffix scan stops at `SuffixEnd`. */
  lemma {:induction false} SuffixEndIs(st: RState, c1: seq<Js>, c2: seq<Js>, i: nat, e1: int, e2: int, container: Option<nat>, parent: Option<nat>, anchor: Option<nat>)
    requires AllPatchable(c1) && AllPatchable(c2) && ParentOk(st, parent)
    requires -1 <= e1 < |c1| && -1 <= e2 < |c2| && i <= e1 + 1 && i <= e2 + 1 && |c1| - e1 == |c2| - e2
    ensures SuffixS(st, c1, c2, i, e1, e2, container, parent, anchor).e1 == SuffixEnd(c1, c2, i, e1, e2)
    decreases e2 + 1
  {
    if i <= e1 && i <= e2 && SameType(c1[e1].n, c2[e2].n) {
      PatchableItems(c1);
      PatchableItems(c2);
      SuffixStep(st, c1, c2, i, e1, e2, container, parent, anchor);
      SuffixEndIs(PatchS(st, Some(c1[e1].n), c2[e2].n, container, parent, anchor), c1, c2, i, e1 - 1, e2 - 1, container, parent, anchor);
    } else {
      SuffixStop(st, c1, c2, i, e1, e2, container, parent, anchor);
    }
  }

  /** Every pair the scan passes matches, and the pair where it stops, if any, does not. */
  lemma {:induction false} SuffixEndMatches(c1: seq<Js>, c2: seq<Js>, i: nat, e1: int, e2: int)
    requires AllPatchable(c1) && AllPatchable(c2)
    requires -1 <= e1 < |c1| && -1 <= e2 < |c2| && i <= e1 + 1 && i <= e2 + 1 && |c1| - e1 == |c2| - e2
    ensures var f := SuffixEnd(c1, c2, i, e1, e2);
      && (forall k | f < k <= e1 :: SameType(c1[k].n, c2[k + (e2 - e1)].n))
      && (i <= f && i <= f + (e2 - e1) ==> !SameType(c1[f].n, c2[f + (e2 - e1)].n))
    decreases e2 + 1
  {
    if i <= e1 && i <= e2 && SameType(c1[e1].n, c2[e2].n) {
      SuffixEndMatches(c1, c2, i, e1 - 1, e2 - 1);
    }
  }

  /** One matching step of the suffix scan. */
  lemma SuffixStep(st: RState, c1: seq<Js>, c2: seq<Js>, i: nat, e1: int, e2: int, container: Option<nat>, parent: Option<nat>, anchor: Option<nat>)
    requires AllPatchable(c1) && AllPatchable(c2) && ParentOk(st, parent)
    requires -1 <= e1 < |c1| && -1 <= e2 < |c2| && i <= e1 + 1 && i <= e2 + 1 && |c1| - e1 == |c2| - e2
    requires i <= e1 && i <= e2 && SameType(c1[e1].n, c2[e2].n) && Patchable(c1[e1].n) && Patchable(c2[e2].n)
    ensures SuffixS(st, c1, c2, i, e1, e2, container, parent, anchor)
      == SuffixS(PatchS(st, Some(c1[e1].n), c2[e2].n, container, parent, anchor), c1, c2, i, e1 - 1, e2 - 1, container, parent, anchor)
  {
  }

  /** The suffix scan stops where a range is empty or the tails differ in type or key. */
  lemma SuffixStop(st: RState, c1: seq<Js>, c2: seq<Js>, i: nat, e1: int, e2: int, container: Option<nat>, parent: Option<nat>, anchor: Option<nat>)
    requires AllPatchable(c1) && AllPatchable(c2) && ParentOk(st, parent)
    requires -1 <= e1 < |c1| && -1 <= e2 < |c2| && i <= e1 + 1 && i <= e2 + 1 && |c1| - e1 == |c2| - e2
    requires !(i <= e1 && i <= e2 && SameType(c1[e1].n, c2[e2].n))
    ensures SuffixS(st, c1, c2, i, e1, e2, container, parent, anchor) == Scan(st, i, e1, e2)
  {
  }

  /** The insertion loop: `patch(null, c2[i])` for `i` up to `e2`, all before one anchor. */
  function MountRangeS(st: RState, c2: seq<Js>, i: nat, e2: int, container: Option<nat>, parent: Option<nat>, anchor: Option<nat>): (r: RState)
    requires AllMountable(c2) && e2 < |c2| && ParentOk(st, parent)
    ensures Grows(st, r)
    decreases SeqSize(c2), 8, e2 - i + 1
  {
    if i <= e2 then
      SeqSizeItem(c2, i);
      MountableItem(c2, i);
      MountRangeS(PatchS(st, None, c2[i].n, container, parent, anchor), c2, i + 1, e2, container, parent, anchor)
    else st
  }

  /** The removal loop: `hostRemove(c1[i].el)` for `i` up to `e1`. */
  function RemoveRangeS(st: RState, c1: seq<Js>, i: nat, e1: int): (r: RState)
    requires (forall k | 0 <= k < |c1| :: c1[k].Node?) && e1 < |c1|
    ensures Grows(st, r) && r.els == st.els && r.next == st.next && r.comps == st.comps && r.arena == st.arena
    decreases e1 - i + 1
  {
    if i <= e1 then RemoveRangeS(st.(trace := st.trace + [Remove(ElOf(st, c1[i].n))]), c1, i + 1, e1)
    else st
  }

  /** `nextPos < l2 ? c2[nextPos].el : null`. */
  function AnchorOf(st: RState, c2: seq<Js>, e2: int): Option<nat>
    requires -1 <= e2 && forall k | 0 <= k < |c2| :: c2[k].Node?
  {
    if e2 + 1 < |c2| then ElOf(st, c2[e2 + 1].n) else None
  }

  /**
   * The two scans of `patchKeyedChildren`: afterwards `i <= e1 + 1`,
   * `i <= e2 + 1`, and both ends moved by the same amount.
   */
  function ScansS(st: RState, c1: seq<Js>, c2: seq<Js>, container: Option<nat>, parent: Option<nat>, anchor: Option<nat>): (s: Scan)
    requires AllPatchable(c1) && AllPatchable(c2) && ParentOk(st, parent)
    ensures Grows(st, s.st)
    ensures 0 <= s.i <= s.e1 + 1 && s.i <= s.e2 + 1 && s.e1 < |c1| && s.e2 < |c2| && |c1| - s.e1 == |c2| - s.e2
    decreases SeqSize(c2), 9
  {
    PatchableItems(c2);
    var p := PrefixS(st, c1, c2, 0, container, parent, anchor);
    SuffixS(p.st, c1, c2, p.i, p.e1, p.e2, container, parent, anchor)
  }

  /**
   * After the two scans, the pairs before `i` and the pairs after the ends
   * have the same type and key, and when both middles are non-empty their
   * first and their last pairs differ.
   */
  lemma KeyedScans(st: RState, c1: seq<Js>, c2: seq<Js>, container: Option<nat>, parent: Option<nat>, anchor: Option<nat>)
    requires AllPatchable(c1) && AllPatchable(c2) && ParentOk(st, parent)
    ensures var s := ScansS(st, c1, c2, container, parent, anchor);
      && (forall k | 0 <= k < s.i :: SameType(c1[k].n, c2[k].n))
      && (forall k | s.e1 < k < |c1| :: SameType(c1[k].n, c2[k + (|c2| - |c1|)].n))
      && (s.i <= s.e1 && s.i <= s.e2 ==> !SameType(c1[s.i].n, c2[s.i].n) && !SameType(c1[s.e1].n, c2[s.e2].n))
  {
    var p := PrefixS(st, c1, c2, 0, container, parent, anchor);
    PrefixMatches(st, c1, c2, 0, container, parent, anchor);
    SuffixMatches(p.st, c1, c2, p.i, p.e1, p.e2, container, parent, anchor);
  }

  /**
   * `patchKeyedChildren(c1, c2, ...)`: the scans, then either the new middle
   * is mounted, or the old middle removed, or (both non-empty) nothing.
   */
  function PatchKeyedS(st: RState, c1: seq<Js>, c2: seq<Js>, container: Option<nat>, parent: Option<nat>, parentAnchor: Option<nat>): (r: RState)
    requires AllPatchable(c1) && AllPatchable(c2) && ParentOk(st, parent)
    ensures Grows(st, r)
    decreases SeqSize(c2), 10
  {
    PatchableItems(c2);
    var s := ScansS(st, c1, c2, container, parent, parentAnchor);
    if s.i > s.e1 then
      if s.i <= s.e2 then MountRangeS(s.st, c2, s.i, s.e2, container, parent, AnchorOf(s.st, c2, s.e2))
      else s.st
    else if s.i > s.e2 then RemoveRangeS(s.st, c1, s.i, s.e1)
    else s.st
  }

  /** Slots never throw for a mountable component vnode. */
  lemma SetupOk(v: VNode, inst: Instance)
    requires v.vtype.Comp? && Mountable(v) && inst.vnode == v
    ensures SetupComponent(inst).Ok?
  {
    FlagKinds(v);
    SizeParts(v);
  }

  /**
   * `mountComponent`: a new instance (its parent the enclosing component),
   * `setupComponent`, then the render effect's first run. The instance
   * keeps the container and anchor its effect closes over.
   */
  function MountComponentS(st: RState, v: VNode, container: Option<nat>, parent: Option<nat>, anchor: Option<nat>): (r: RState)
    requires v.vtype.Comp? && Mountable(v) && ParentOk(st, parent)
    ensures Grows(st, r)
    decreases Size(v), 3
  {
    var made := CreateInstanceS(st.comps, st.arena, v, parent);
    SetupOk(v, made.0);
    var inst := SetupComponent(made.0).value.(container := container, anchor := anchor);
    RenderEffectS(st.(comps := st.comps + [inst], arena := made.1), |st.comps|, v.vtype.c.render)
  }

  /** What the render effect of instance `idx` needs to run with `tree` as the render result. */
  predicate EffectReady(st: RState, idx: nat, tree: VNode)
  {
    && idx < |st.comps|
    && Mountable(tree)
    && (st.comps[idx].isMounted ==> st.comps[idx].subTree.Some? && PatchPair(st.comps[idx].subTree, tree))
  }

  /**
   * The function of `setupRenderEffect`'s effect, `tree` being what
   * `render` returns this time. The first run stores the tree as
   * `subTree`, mounts it, copies its `el` to the component's vnode and sets
   * `isMounted`; a later run replaces `subTree` and patches the previous
   * tree against the new one.
   */
  function RenderEffectS(st: RState, idx: nat, tree: VNode): (r: RState)
    requires EffectReady(st, idx, tree)
    ensures |st.trace| <= |r.trace| && (forall k | 0 <= k < |st.trace| :: r.trace[k] == st.trace[k])
    ensures |st.comps| <= |r.comps| && (forall k | 0 <= k < |st.comps| && k != idx :: r.comps[k] == st.comps[k])
    decreases Size(tree), 6
  {
    var inst := st.comps[idx];
    var s1 := st.(comps := st.comps[idx := inst.(subTree := Some(tree))]);
    if !inst.isMounted then
      var s2 := PatchS(s1, None, tree, inst.container, Some(idx), inst.anchor);
      s2.(els := SetEl(s2.els, inst.vnode.id, ElOf(s2, tree)),
          comps := s2.comps[idx := s2.comps[idx].(isMounted := true)])
    else
      PatchS(s1, inst.subTree, tree, inst.container, Some(idx), inst.anchor)
  }

  /** `render(vnode, container)`: `patch(null, vnode, container, null, null)`. */
  function RenderS(st: RState, vnode: VNode, container: nat): (r: RState)
    requires Mountable(vnode)
    ensures Grows(st, r)
  {
    PatchS(st, None, vnode, Some(container), None, None)
  }

  /** `createApp(rootComponent).mount(rootContainer)`: render a vnode of the root component with no props and no children. */
  function MountAppS(st: RState, root: Component, id: nat, container: nat): (r: RState)
    requires Mountable(root.render)
    ensures Grows(st, r)
  {
    var vnode := CreateVNode(id, Comp(root), PUndefined, Prim(Undefined));
    FlagKinds(vnode);
    RenderS(st, vnode, container)
  }

  // ---------------------------------------------------------------------
  // Properties of the reconciler
  // ---------------------------------------------------------------------

  /** `processFragment`, `processText` and `processComponent` ignore the old vnode. */
  lemma PatchIgnoresOld(st: RState, n1: VNode, n2: VNode, container: Option<nat>, parent: Option<nat>, anchor: Option<nat>)
    requires !n2.vtype.Tag? && Mountable(n2) && ParentOk(st, parent)
    ensures PatchS(st, Some(n1), n2, container, parent, anchor) == PatchS(st, None, n2, container, parent, anchor)
  {
    FlagKinds(n2);
  }

  lemma AllMountableSlice(items: seq<Js>, a: nat, b: nat)
    requires AllMountable(items) && a <= b <= |items|
    ensures AllMountable(items[a..b])
  {
    forall k | 0 <= k < b - a
      ensures items[a..b][k].Node? && MountableJs(items[a..b][k])
    {
      assert items[a..b][k] == items[a + k];
      MountableItem(items, a + k);
    }
  }

  /** `mountElement` issues one `patchProp(el, key, null, value)` per prop, in order. */
  lemma {:induction false} MountPropOpsAll(el: nat, entries: seq<Prop>)
    ensures |MountPropOps(el, entries)| == |entries|
    ensures forall k | 0 <= k < |entries| :: MountPropOps(el, entries)[k] == PatchProp(Some(el), entries[k].key, Null, entries[k].value)
  {
    if entries != [] {
      MountPropOpsAll(el, entries[..|entries| - 1]);
    }
  }

  /** `unmountChildren` removes the node of each child, in order. */
  lemma {:induction false} RemoveOpsAll(st: RState, items: seq<Js>)
    requires forall i | 0 <= i < |items| :: items[i].Node?
    ensures |RemoveOps(st, items)| == |items|
    ensures forall k | 0 <= k < |items| :: RemoveOps(st, items)[k] == Remove(ElOf(st, items[k].n))
  {
    if items != [] {
      RemoveOpsAll(st, items[..|items| - 1]);
    }
  }

  /** The removal loop of the keyed diff removes the nodes of `c1[i..e1]`, in order, and changes nothing else. */
  lemma {:induction false} RemoveRangeOps(st: RState, c1: seq<Js>, i: nat, e1: int)
    requires (forall k | 0 <= k < |c1| :: c1[k].Node?) && e1 < |c1| && i <= e1 + 1
    ensures RemoveRangeS(st, c1, i, e1) == st.(trace := st.trace + RemoveOps(st, c1[i..e1 + 1]))
    decreases e1 - i + 1
  {
    var r := RemoveRangeS(st, c1, i, e1);
    var want := st.(trace := st.trace + RemoveOps(st, c1[i..e1 + 1]));
    RemoveOpsAll(st, c1[i..e1 + 1]);
    if i <= e1 {
      var st' := st.(trace := st.trace + [Remove(ElOf(st, c1[i].n))]);
      RemoveRangeOps(st', c1, i + 1, e1);
      RemoveOpsAll(st', c1[i + 1..e1 + 1]);
      assert r.trace == want.trace by {
        forall k | 0 <= k < |r.trace|
          ensures r.trace[k] == want.trace[k]
        {
          if k > |st.trace| {
            assert c1[i + 1..e1 + 1][k - |st.trace| - 1] == c1[i..e1 + 1][k - |st.trace|];
          }
        }
      }
    }
  }

  /** Running the insertion loop after mounting `c2[j..i]` is mounting `c2[j..e2]`. */
  lemma {:induction false} MountRangeFrom(st: RState, c2: seq<Js>, j: nat, i: nat, e2: int, container: Option<nat>, parent: Option<nat>, anchor: Option<nat>)
    requires AllMountable(c2) && j <= i <= e2 + 1 && e2 < |c2| && ParentOk(st, parent)
    ensures AllMountable(c2[j..i]) && AllMountable(c2[j..e2 + 1])
    ensures MountRangeS(MountChildrenS(st, c2[j..i], container, parent, anchor), c2, i, e2, container, parent, anchor)
         == MountChildrenS(st, c2[j..e2 + 1], container, parent, anchor)
    decreases e2 - i + 1
  {
    AllMountableSlice(c2, j, i);
    AllMountableSlice(c2, j, e2 + 1);
    if i <= e2 {
      MountableItem(c2, i);
      var mid := MountChildrenS(st, c2[j..i], container, parent, anchor);
      MountRangeStep(mid, c2, i, e2, container, parent, anchor);
      MountChildrenExtend(st, c2, j, i, container, parent, anchor);
      var next := MountChildrenS(st, c2[j..i + 1], container, parent, anchor);
      assert MountRangeS(mid, c2, i, e2, container, parent, anchor) == MountRangeS(next, c2, i + 1, e2, container, parent, anchor);
      MountRangeFrom(st, c2, j, i + 1, e2, container, parent, anchor);
    } else {
      assert c2[j..i] == c2[j..e2 + 1];
    }
  }

  /** One step of the insertion loop. */
  lemma MountRangeStep(st: RState, c2: seq<Js>, i: nat, e2: int, container: Option<nat>, parent: Option<nat>, anchor: Option<nat>)
    requires AllMountable(c2) && i <= e2 < |c2| && ParentOk(st, parent)
    ensures c2[i].Node? && Mountable(c2[i].n)
    ensures MountRangeS(st, c2, i, e2, container, parent, anchor)
         == MountRangeS(PatchS(st, None, c2[i].n, container, parent, anchor), c2, i + 1, e2, container, parent, anchor)
  {
    MountableItem(c2, i);
  }

  /** Mounting `c2[j..i + 1]` is mounting `c2[j..i]`, then `c2[i]`. */
  lemma MountChildrenExtend(st: RState, c2: seq<Js>, j: nat, i: nat, container: Option<nat>, parent: Option<nat>, anchor: Option<nat>)
    requires AllMountable(c2) && j <= i < |c2| && ParentOk(st, parent)
    ensures AllMountable(c2[j..i]) && AllMountable(c2[j..i + 1]) && c2[i].Node? && Mountable(c2[i].n)
    ensures MountChildrenS(st, c2[j..i + 1], container, parent, anchor)
         == PatchS(MountChildrenS(st, c2[j..i], container, parent, anchor), None, c2[i].n, container, parent, anchor)
  {
    AllMountableSlice(c2, j, i);
    AllMountableSlice(c2, j, i + 1);
    MountableItem(c2, i);
    assert c2[j..i + 1][..i - j] == c2[j..i];
    assert c2[j..i + 1][i - j] == c2[i];
  }

  /**
   * Pure insertion (the old middle is empty): exactly the new middle
   * `c2[i..e2]` is mounted, in order, every child before the same anchor,
   * the node of `c2[e2 + 1]` or none at the end.
   */
  lemma KeyedInsert(st: RState, c1: seq<Js>, c2: seq<Js>, container: Option<nat>, parent: Option<nat>, anchor: Option<nat>)
    requires AllPatchable(c1) && AllPatchable(c2) && ParentOk(st, parent)
    requires var s := ScansS(st, c1, c2, container, parent, anchor); s.i > s.e1 && s.i <= s.e2
    ensures
      var s := ScansS(st, c1, c2, container, parent, anchor);
      && AllMountable(c2[s.i..s.e2 + 1])
      && PatchKeyedS(st, c1, c2, container, parent, anchor)
         == MountChildrenS(s.st, c2[s.i..s.e2 + 1], container, parent, AnchorOf(s.st, c2, s.e2))
  {
    PatchableItems(c2);
    var s := ScansS(st, c1, c2, container, parent, anchor);
    var a := AnchorOf(s.st, c2, s.e2);
    assert PatchKeyedS(st, c1, c2, container, parent, anchor) == MountRangeS(s.st, c2, s.i, s.e2, container, parent, a);
    MountRangeIsChildren(s.st, c2, s.i, s.e2, container, parent, a);
  }

  /** The insertion loop mounts `c2[i..e2]` as `mountChildren` would. */
  lemma MountRangeIsChildren(st: RState, c2: seq<Js>, i: nat, e2: int, container: Option<nat>, parent: Option<nat>, anchor: Option<nat>)
    requires AllMountable(c2) && i <= e2 + 1 && e2 < |c2| && ParentOk(st, parent)
    ensures AllMountable(c2[i..e2 + 1])
    ensures MountRangeS(st, c2, i, e2, container, parent, anchor) == MountChildrenS(st, c2[i..e2 + 1], container, parent, anchor)
  {
    assert c2[i..i] == [];
    assert MountChildrenS(st, c2[i..i], container, parent, anchor) == st;
    MountRangeFrom(st, c2, i, i, e2, container, parent, anchor);
  }


  /** Pure removal (the new middle is empty, the old one not): the nodes of `c1[i..e1]` are removed in order, nothing else. */
  lemma KeyedRemove(st: RState, c1: seq<Js>, c2: seq<Js>, container: Option<nat>, parent: Option<nat>, anchor: Option<nat>)
    requires AllPatchable(c1) && AllPatchable(c2) && ParentOk(st, parent)
    requires var s := ScansS(st, c1, c2, container, parent, anchor); s.i <= s.e1 && s.i > s.e2
    ensures
      var s := ScansS(st, c1, c2, container, parent, anchor);
      PatchKeyedS(st, c1, c2, container, parent, anchor) == s.st.(trace := s.st.trace + RemoveOps(s.st, c1[s.i..s.e1 + 1]))
  {
    var s := ScansS(st, c1, c2, container, parent, anchor);
    RemoveRangeOps(s.st, c1, s.i, s.e1);
  }


  /** When both middles are non-empty the source stops: no insertion and no removal. */
  lemma KeyedBothRemain(st: RState, c1: seq<Js>, c2: seq<Js>, container: Option<nat>, parent: Option<nat>, anchor: Option<nat>)
    requires AllPatchable(c1) && AllPatchable(c2) && ParentOk(st, parent)
    requires var s := ScansS(st, c1, c2, container, parent, anchor); s.i <= s.e1 && s.i <= s.e2
    ensures PatchKeyedS(st, c1, c2, container, parent, anchor) == ScansS(st, c1, c2, container, parent, anchor).st
  {
  }

  /** Text over an array: every old child's node is removed, in order, then the text is set. */
  lemma PatchChildrenTextOverArray(st: RState, n1: VNode, n2: VNode, container: Option<nat>, parent: Option<nat>, anchor: Option<nat>)
    requires n1.vtype.Tag? && n2.vtype.Tag? && Patchable(n1) && Patchable(n2) && ParentOk(st, parent)
    requires IsString(n2.children) && n1.children.Arr?
    ensures AllPatchable(n1.children.items)
    ensures var r := PatchChildrenS(st, n1, n2, container, parent, anchor);
      && |r.trace| == |st.trace| + |n1.children.items| + 1
      && r.trace[..|st.trace|] == st.trace
      && (forall k | 0 <= k < |n1.children.items| :: r.trace[|st.trace| + k] == Remove(ElOf(st, n1.children.items[k].n)))
      && r.trace[|r.trace| - 1] == SetElementText(container, n2.children.v.s)
  {
    FlagKinds(n1);
    FlagKinds(n2);
    PatchableChildren(n1);
    RemoveOpsAll(st, n1.children.items);
  }

  /** Text over text: the text is set only when it changed. */
  lemma PatchChildrenTextOverText(st: RState, n1: VNode, n2: VNode, container: Option<nat>, parent: Option<nat>, anchor: Option<nat>)
    requires n1.vtype.Tag? && n2.vtype.Tag? && Patchable(n1) && Patchable(n2) && ParentOk(st, parent)
    requires IsString(n2.children) && IsString(n1.children)
    ensures PatchChildrenS(st, n1, n2, container, parent, anchor)
      == if n1.children == n2.children then st else st.(trace := st.trace + [SetElementText(container, n2.children.v.s)])
  {
    FlagKinds(n1);
    FlagKinds(n2);
  }

  /** Array over text: the text is cleared, then the new children are mounted. */
  lemma PatchChildrenArrayOverText(st: RState, n1: VNode, n2: VNode, container: Option<nat>, parent: Option<nat>, anchor: Option<nat>)
    requires n1.vtype.Tag? && n2.vtype.Tag? && Patchable(n1) && Patchable(n2) && ParentOk(st, parent)
    requires n2.children.Arr? && IsString(n1.children)
    ensures AllMountable(n2.children.items)
    ensures PatchChildrenS(st, n1, n2, container, parent, anchor)
      == MountChildrenS(st.(trace := st.trace + [SetElementText(container, "")]), n2.children.items, container, parent, anchor)
  {
    FlagKinds(n1);
    FlagKinds(n2);
    PatchableChildren(n2);
  }

  /** Array over array: the keyed diff runs. */
  lemma PatchChildrenArrayOverArray(st: RState, n1: VNode, n2: VNode, container: Option<nat>, parent: Option<nat>, anchor: Option<nat>)
    requires n1.vtype.Tag? && n2.vtype.Tag? && Patchable(n1) && Patchable(n2) && ParentOk(st, parent)
    requires n2.children.Arr? && n1.children.Arr?
    ensures AllPatchable(n1.children.items) && AllPatchable(n2.children.items)
    ensures PatchChildrenS(st, n1, n2, container, parent, anchor)
      == PatchKeyedS(st, n1.children.items, n2.children.items, container, parent, anchor)
  {
    FlagKinds(n1);
    FlagKinds(n2);
    PatchableChildren(n1);
    PatchableChildren(n2);
  }

  /** `op` is `patchProp(el, key, old, new)` for a key of the new props whose value differs from the old one. */
  predicate ChangedCall(el: Option<nat>, oldE: seq<Prop>, newE: seq<Prop>, op: HostOp)
  {
    exists k | 0 <= k < |newE| ::
      (PropValue(oldE, newE[k].key) != newE[k].value
       && op == PatchProp(el, newE[k].key, PropValue(oldE, newE[k].key), newE[k].value))
  }

  /** `op` is `patchProp(el, key, old, null)` for a key of the old props that the new props lack. */
  predicate RemovedCall(el: Option<nat>, oldE: seq<Prop>, newE: seq<Prop>, op: HostOp)
  {
    exists k | 0 <= k < |oldE| :: (!HasProp(newE, oldE[k].key) && op == PatchProp(el, oldE[k].key, oldE[k].value, Null))
  }

  /** The calls of the first `patchProps` loop are exactly those for new keys whose value differs from the old one. */
  lemma {:induction false} ChangedOpsAre(el: Option<nat>, oldE: seq<Prop>, newE: seq<Prop>, op: HostOp)
    ensures op in ChangedOps(el, oldE, newE) <==> ChangedCall(el, oldE, newE, op)
  {
    if newE != [] {
      var n := |newE| - 1;
      var init := newE[..n];
      var p := newE[n];
      var prev := PropValue(oldE, p.key);
      var last := if prev != p.value then [PatchProp(el, p.key, prev, p.value)] else [];
      assert ChangedOps(el, oldE, newE) == ChangedOps(el, oldE, init) + last;
      ChangedOpsAre(el, oldE, init, op);
      if ChangedCall(el, oldE, init, op) {
        var k :| 0 <= k < |init| && PropValue(oldE, init[k].key) != init[k].value
          && op == PatchProp(el, init[k].key, PropValue(oldE, init[k].key), init[k].value);
        assert init[k] == newE[k];
      }
      if op in last {
        assert PropValue(oldE, newE[n].key) != newE[n].value
          && op == PatchProp(el, newE[n].key, PropValue(oldE, newE[n].key), newE[n].value);
      }
      if ChangedCall(el, oldE, newE, op) {
        var k :| 0 <= k < |newE| && PropValue(oldE, newE[k].key) != newE[k].value
          && op == PatchProp(el, newE[k].key, PropValue(oldE, newE[k].key), newE[k].value);
        if k < n {
          assert init[k] == newE[k];
        } else {
          assert op in last;
        }
      }
    }
  }

  /** The calls of the second `patchProps` loop are exactly those, with `null`, for old keys the new props lack. */
  lemma {:induction false} RemovedOpsAre(el: Option<nat>, oldE: seq<Prop>, newE: seq<Prop>, op: HostOp)
    ensures op in RemovedOps(el, oldE, newE) <==> RemovedCall(el, oldE, newE, op)
  {
    if oldE != [] {
      var n := |oldE| - 1;
      var init := oldE[..n];
      var p := oldE[n];
      var last := if !HasProp(newE, p.key) then [PatchProp(el, p.key, p.value, Null)] else [];
      assert RemovedOps(el, oldE, newE) == RemovedOps(el, init, newE) + last;
      RemovedOpsAre(el, init, newE, op);
      if RemovedCall(el, init, newE, op) {
        var k :| 0 <= k < |init| && !HasProp(newE, init[k].key) && op == PatchProp(el, init[k].key, init[k].value, Null);
        assert init[k] == oldE[k];
      }
      if op in last {
        assert !HasProp(newE, oldE[n].key) && op == PatchProp(el, oldE[n].key, oldE[n].value, Null);
      }
      if RemovedCall(el, oldE, newE, op) {
        var k :| 0 <= k < |oldE| && !HasProp(newE, oldE[k].key) && op == PatchProp(el, oldE[k].key, oldE[k].value, Null);
        if k < n {
          assert init[k] == oldE[k];
        } else {
          assert op in last;
        }
      }
    }
  }

  /**
   * The `patchProps` policy: nothing when both props are the same object;
   * otherwise a call is issued iff it is `(key, old, new)` for a new key
   * whose value changed, or `(key, old, null)` for an old key the new
   * props lack, the latter only when the old vnode had props.
   */
  lemma PatchPropsPolicy(st: RState, el: Option<nat>, oldP: PropsRef, newP: PropsRef, op: HostOp)
    ensures var r := PatchPropsS(st, el, oldP, newP);
      && st.trace <= r.trace
      && (SameObject(oldP, newP) ==> r == st)
      && (!SameObject(oldP, newP) ==>
            (op in r.trace[|st.trace|..] <==>
               || ChangedCall(el, Entries(oldP), Entries(newP), op)
               || (!oldP.EmptyObj? && RemovedCall(el, Entries(oldP), Entries(newP), op))))
  {
    var r := PatchPropsS(st, el, oldP, newP);
    if !SameObject(oldP, newP) {
      var changed := ChangedOps(el, Entries(oldP), Entries(newP));
      var removed := if !oldP.EmptyObj? then RemovedOps(el, Entries(oldP), Entries(newP)) else [];
      assert r.trace[|st.trace|..] == changed + removed;
      ChangedOpsAre(el, Entries(oldP), Entries(newP), op);
      RemovedOpsAre(el, Entries(oldP), Entries(newP), op);
    }
  }

  /** From position `from` on, no call removes a node and every insertion is before `anchor`. */
  predicate MountsBefore(t: seq<HostOp>, from: nat, anchor: Option<nat>)
  {
    forall k | from <= k < |t| :: !t[k].Remove? && (t[k].Insert? ==> t[k].anchor == anchor)
  }

  /**
   * Mounting never removes a node and inserts every element before the
   * anchor it was given, nested elements included: `mountElement` passes
   * its own anchor on to `mountChildren` of the new element.
   */
  lemma {:induction false} PatchMountsBefore(st: RState, n2: VNode, container: Option<nat>, parent: Option<nat>, anchor: Option<nat>)
    requires Mountable(n2) && ParentOk(st, parent)
    ensures MountsBefore(PatchS(st, None, n2, container, parent, anchor).trace, |st.trace|, anchor)
    decreases Size(n2), 5
  {
    FlagKinds(n2);
    SizeParts(n2);
    if n2.vtype == FragmentSym {
      ChildrenMountsBefore(st, n2.children.items, container, parent, anchor);
    } else if n2.vtype.Tag? {
      ElementMountsBefore(st, n2, container, parent, anchor);
    } else if n2.vtype.Comp? {
      ComponentMountsBefore(st, n2, container, parent, anchor);
    }
  }

  lemma {:induction false} ChildrenMountsBefore(st: RState, items: seq<Js>, container: Option<nat>, parent: Option<nat>, anchor: Option<nat>)
    requires AllMountable(items) && ParentOk(st, parent)
    ensures MountsBefore(MountChildrenS(st, items, container, parent, anchor).trace, |st.trace|, anchor)
    decreases SeqSize(items), 6
  {
    if items != [] {
      SeqSizeLast(items);
      MountableItem(items, |items| - 1);
      var mid := MountChildrenS(st, items[..|items| - 1], container, parent, anchor);
      ChildrenMountsBefore(st, items[..|items| - 1], container, parent, anchor);
      PatchMountsBefore(mid, items[|items| - 1].n, container, parent, anchor);
    }
  }

  lemma {:induction false} ElementMountsBefore(st: RState, v: VNode, container: Option<nat>, parent: Option<nat>, anchor: Option<nat>)
    requires v.vtype.Tag? && Mountable(v) && ParentOk(st, parent)
    ensures MountsBefore(MountElementS(st, v, container, parent, anchor).trace, |st.trace|, anchor)
    decreases Size(v), 3
  {
    FlagKinds(v);
    SizeParts(v);
    var el := st.next;
    var s1 := st.(trace := st.trace + [CreateElement(el, v.vtype.name)], next := st.next + 1, els := st.els[v.id := el]);
    if !IsString(v.children) && v.children.Arr? {
      ChildrenMountsBefore(s1, v.children.items, Some(el), parent, anchor);
    }
    MountPropOpsAll(el, PropsEntries(v.props));
  }

  lemma {:induction false} ComponentMountsBefore(st: RState, v: VNode, container: Option<nat>, parent: Option<nat>, anchor: Option<nat>)
    requires v.vtype.Comp? && Mountable(v) && ParentOk(st, parent)
    ensures MountsBefore(MountComponentS(st, v, container, parent, anchor).trace, |st.trace|, anchor)
    decreases Size(v), 3
  {
    SizeParts(v);
    var made := CreateInstanceS(st.comps, st.arena, v, parent);
    SetupOk(v, made.0);
    var inst := SetupComponent(made.0).value.(container := container, anchor := anchor);
    var s0 := st.(comps := st.comps + [inst], arena := made.1);
    var idx := |st.comps|;
    var s1 := s0.(comps := s0.comps[idx := inst.(subTree := Some(v.vtype.c.render))]);
    PatchMountsBefore(s1, v.vtype.c.render, container, Some(idx), anchor);
  }

  /**
   * `t` extends `t0` with: the creation of node `el`, then any calls, then
   * one `patchProp(el, key, null, value)` per prop of `v` in order, then the
   * insertion of `el` into `container` before `anchor`; when `v` has text
   * children, the calls between are only the setting of that text.
   */
  predicate ElementCalls(t0: seq<HostOp>, t: seq<HostOp>, el: nat, v: VNode, container: Option<nat>, anchor: Option<nat>)
    requires v.vtype.Tag?
  {
    var props := PropsEntries(v.props);
    var n := |props|;
    && |t| >= |t0| + n + 2
    && t[..|t0|] == t0
    && t[|t0|] == CreateElement(el, v.vtype.name)
    && (forall k | 0 <= k < n :: t[|t| - 1 - n + k] == PatchProp(Some(el), props[k].key, Null, props[k].value))
    && t[|t| - 1] == Insert(el, container, anchor)
  }

  /**
   * `mountElement` creates a new host node, then issues the text or the
   * children's calls, then one `patchProp(el, key, null, value)` per prop in
   * order, and last inserts the node into the container before the anchor.
   */
  lemma MountElementOps(st: RState, v: VNode, container: Option<nat>, parent: Option<nat>, anchor: Option<nat>)
    requires v.vtype.Tag? && Mountable(v) && ParentOk(st, parent)
    ensures st.next < MountElementS(st, v, container, parent, anchor).next
    ensures ElementCalls(st.trace, MountElementS(st, v, container, parent, anchor).trace, st.next, v, container, anchor)
  {
    FlagKinds(v);
    var el := st.next;
    var s1 := st.(trace := st.trace + [CreateElement(el, v.vtype.name)], next := st.next + 1, els := st.els[v.id := el]);
    var s2 := ElementContentS(s1, v, el, parent, anchor);
    var r := MountElementS(st, v, container, parent, anchor);
    assert r == s2.(trace := s2.trace + MountPropOps(el, PropsEntries(v.props)) + [Insert(el, container, anchor)]);
    assert s1.trace <= s2.trace;
    var mid := s2.trace[|s1.trace|..];
    assert s2.trace == st.trace + [CreateElement(el, v.vtype.name)] + mid;
    assert IsString(v.children) ==> mid == [SetElementText(Some(el), v.children.v.s)];
    ElementCallsOf(st.trace, mid, el, v, container, anchor);
  }

  lemma ElementCallsOf(t0: seq<HostOp>, mid: seq<HostOp>, el: nat, v: VNode, container: Option<nat>, anchor: Option<nat>)
    requires v.vtype.Tag?
    ensures ElementCalls(t0, t0 + [CreateElement(el, v.vtype.name)] + mid + MountPropOps(el, PropsEntries(v.props)) + [Insert(el, container, anchor)], el, v, container, anchor)
  {
    var props := PropsEntries(v.props);
    var pre := t0 + [CreateElement(el, v.vtype.name)] + mid;
    PropCallsAt(pre, el, props, Insert(el, container, anchor));
    assert pre[..|t0|] == t0;
  }

  /** In `pre + MountPropOps(el, props) + [last]`, the prop calls sit just before `last`. */
  lemma PropCallsAt(pre: seq<HostOp>, el: nat, props: seq<Prop>, last: HostOp)
    ensures var t := pre + MountPropOps(el, props) + [last];
      && |t| == |pre| + |props| + 1
      && t[..|pre|] == pre
      && t[|t| - 1] == last
      && forall k | 0 <= k < |props| :: t[|t| - 1 - |props| + k] == PatchProp(Some(el), props[k].key, Null, props[k].value)
  {
    MountPropOpsAll(el, props);
    var t := pre + MountPropOps(el, props) + [last];
    forall k | 0 <= k < |props|
      ensures t[|t| - 1 - |props| + k] == PatchProp(Some(el), props[k].key, Null, props[k].value)
    {
      assert t[|t| - 1 - |props| + k] == MountPropOps(el, props)[k];
    }
  }





  /**
   * The first run of the render effect mounts `tree` (with the instance as
   * parent, into the instance's container before its anchor), stores it as
   * `subTree`, sets `isMounted`, and gives the component's vnode the
   * tree's `el`; other instances are untouched.
   */
  lemma FirstRun(st: RState, idx: nat, tree: VNode)
    requires EffectReady(st, idx, tree) && !st.comps[idx].isMounted
    ensures var r := RenderEffectS(st, idx, tree);
      var inst := st.comps[idx];
      var m := PatchS(st.(comps := st.comps[idx := inst.(subTree := Some(tree))]), None, tree, inst.container, Some(idx), inst.anchor);
      && r.comps[idx] == inst.(subTree := Some(tree), isMounted := true)
      && (forall k | 0 <= k < |st.comps| && k != idx :: r.comps[k] == st.comps[k])
      && r.trace == m.trace
      && MountsBefore(r.trace, |st.trace|, inst.anchor)
      && ElOf(r, inst.vnode) == ElOf(m, tree)
      && (forall id | id != inst.vnode.id :: (id in r.els <==> id in m.els) && (id in r.els ==> r.els[id] == m.els[id]))
  {
    var inst := st.comps[idx];
    var s1 := st.(comps := st.comps[idx := inst.(subTree := Some(tree))]);
    PatchMountsBefore(s1, tree, inst.container, Some(idx), inst.anchor);
  }

  /**
   * A later run replaces `subTree` by the new tree and patches the
   * previous tree against it; when the new tree is not an element it is
   * mounted afresh, as if there were no previous tree.
   */
  lemma LaterRun(st: RState, idx: nat, tree: VNode)
    requires EffectReady(st, idx, tree) && st.comps[idx].isMounted
    ensures var r := RenderEffectS(st, idx, tree);
      var inst := st.comps[idx];
      var s1 := st.(comps := st.comps[idx := inst.(subTree := Some(tree))]);
      && r.comps[idx] == inst.(subTree := Some(tree))
      && (forall k | 0 <= k < |st.comps| && k != idx :: r.comps[k] == st.comps[k])
      && r == PatchS(s1, inst.subTree, tree, inst.container, Some(idx), inst.anchor)
      && (!tree.vtype.Tag? ==> r == PatchS(s1, None, tree, inst.container, Some(idx), inst.anchor))
  {
    var inst := st.comps[idx];
    var s1 := st.(comps := st.comps[idx := inst.(subTree := Some(tree))]);
    if !tree.vtype.Tag? {
      PatchIgnoresOld(s1, inst.subTree.value, tree, inst.container, Some(idx), inst.anchor);
    }
  }

  /**
   * `mountComponent` adds one instance: its vnode, its parent, the parent's
   * provides object (a new empty one for a root), the container and anchor
   * it was mounted with; after the first render it is mounted with the
   * component's tree as `subTree`.
   */
  lemma MountComponentInstance(st: RState, v: VNode, container: Option<nat>, parent: Option<nat>, anchor: Option<nat>)
    requires v.vtype.Comp? && Mountable(v) && ParentOk(st, parent)
    ensures var r := MountComponentS(st, v, container, parent, anchor);
      var idx := |st.comps|;
      && idx < |r.comps|
      && r.comps[..idx] == st.comps
      && r.comps[idx].vnode == v && r.comps[idx].parent == parent
      && r.comps[idx].container == container && r.comps[idx].anchor == anchor
      && r.comps[idx].isMounted && r.comps[idx].subTree == Some(v.vtype.c.render)
      && (parent.Some? ==> r.comps[idx].providesId == st.comps[parent.value].providesId)
      && (parent.None? ==> r.comps[idx].providesId == |st.arena|)
      && MountsBefore(r.trace, |st.trace|, anchor)
  {
    var made := CreateInstanceS(st.comps, st.arena, v, parent);
    SetupOk(v, made.0);
    var inst := SetupComponent(made.0).value.(container := container, anchor := anchor);
    var s0 := st.(comps := st.comps + [inst], arena := made.1);
    FirstRun(s0, |st.comps|, v.vtype.c.render);
  }

  /**
   * Re-rendering an element whose text alone changed, over the same props,
   * issues exactly one call: setting the new text on the node the old tree
   * had, which the new tree takes over.
   */
  lemma RerenderText(st: RState, idx: nat, prev: VNode, tree: VNode)
    requires EffectReady(st, idx, tree) && st.comps[idx].isMounted && st.comps[idx].subTree == Some(prev)
    requires prev.vtype.Tag? && tree.vtype.Tag? && Patchable(prev) && Patchable(tree)
    requires IsString(prev.children) && IsString(tree.children) && prev.children != tree.children
    requires prev.props == tree.props
    ensures var r := RenderEffectS(st, idx, tree);
      && r.trace == st.trace + [SetElementText(ElOf(st, prev), tree.children.v.s)]
      && ElOf(r, tree) == ElOf(st, prev)
      && r.comps[idx].subTree == Some(tree)
  {
    var inst := st.comps[idx];
    var s1 := st.(comps := st.comps[idx := inst.(subTree := Some(tree))]);
    FlagKinds(prev);
    FlagKinds(tree);
    var el := ElOf(s1, prev);
    var s2 := s1.(els := SetEl(s1.els, tree.id, el));
    var s3 := s2.(trace := s2.trace + [SetElementText(el, tree.children.v.s)]);
    assert PatchChildrenS(s2, prev, tree, el, Some(idx), inst.anchor) == s3;
    assert SameObject(PropsRefOf(prev.props), PropsRefOf(tree.props));
    assert PatchElementS(s1, prev, tree, Some(idx), inst.anchor) == s3;
    assert PatchS(s1, Some(prev), tree, inst.container, Some(idx), inst.anchor) == s3;
    assert ElOf(s1, prev) == ElOf(st, prev);
  }

  /**
   * The renderer with its state in place: each method does what the
   * function of the same name (with an `S` suffix) says, with the loops of
   * the source.
   */
  class Renderer {
    var trace: seq<HostOp>
    var next: nat
    var els: map<nat, nat>
    var comps: seq<Instance>
    var arena: seq<ProvidesObj>

    function S(): RState
      reads this
    {
      RState(trace, next, els, comps, arena)
    }

    constructor ()
      ensures S() == RState([], 0, map[], [], [])
    {
      trace := [];
      next := 0;
      els := map[];
      comps := [];
      arena := [];
    }

    /** `vnode.el`. */
    method El(v: VNode) returns (el: Option<nat>)
      ensures el == ElOf(S(), v)
    {
      el := if v.id in els then Some(els[v.id]) else None;
    }

    method Patch(n1: Option<VNode>, n2: VNode, container: Option<nat>, parent: Option<nat>, anchor: Option<nat>)
      requires PatchPair(n1, n2) && ParentOk(S(), parent)
      modifies this
      ensures S() == PatchS(old(S()), n1, n2, container, parent, anchor)
      decreases Size(n2), 5
    {
      FlagKinds(n2);
      SizeParts(n2);
      if n2.vtype == FragmentSym {
        MountChildren(n2.children.items, container, parent, anchor);
      } else if n2.vtype == TextSym {
        ProcessText(n2, container);
      } else if Has(n2.shapeFlag, ELEMENT) {
        ProcessElement(n1, n2, container, parent, anchor);
      } else if Has(n2.shapeFlag, STATEFUL_COMPONENT) {
        MountComponent(n2, container, parent, anchor);
      }
    }

    method ProcessText(n2: VNode, container: Option<nat>)
      requires IsString(n2.children)
      modifies this
      ensures S() == ProcessTextS(old(S()), n2, container)
    {
      var node := next;
      trace := trace + [CreateText(node, n2.children.v.s)];
      els := els[n2.id := node];
      trace := trace + [Append(container, node)];
      next := next + 1;
    }

    method MountChildren(items: seq<Js>, container: Option<nat>, parent: Option<nat>, anchor: Option<nat>)
      requires AllMountable(items) && ParentOk(S(), parent)
      modifies this
      ensures S() == MountChildrenS(old(S()), items, container, parent, anchor)
      decreases SeqSize(items), 6
    {
      ghost var s0 := S();
      for i := 0 to |items|
        invariant AllMountable(items[..i])
        invariant S() == MountChildrenS(s0, items[..i], container, parent, anchor)
      {
        SeqSizeItem(items, i);
        MountableItem(items, i);
        AllMountableSlice(items, 0, i + 1);
        Patch(None, items[i].n, container, parent, anchor);
        assert items[..i + 1][..i] == items[..i];
      }
      assert items[..|items|] == items;
    }

    method ProcessElement(n1: Option<VNode>, n2: VNode, container: Option<nat>, parent: Option<nat>, anchor: Option<nat>)
      requires n2.vtype.Tag? && PatchPair(n1, n2) && ParentOk(S(), parent)
      modifies this
      ensures S() == ProcessElementS(old(S()), n1, n2, container, parent, anchor)
      decreases Size(n2), 4
    {
      if n1.None? {
        MountElement(n2, container, parent, anchor);
      } else {
        PatchElement(n1.value, n2, parent, anchor);
      }
    }

    method MountElement(v: VNode, container: Option<nat>, parent: Option<nat>, anchor: Option<nat>)
      requires v.vtype.Tag? && Mountable(v) && ParentOk(S(), parent)
      modifies this
      ensures S() == MountElementS(old(S()), v, container, parent, anchor)
      decreases Size(v), 3
    {
      FlagKinds(v);
      SizeParts(v);
      var el := next;
      trace := trace + [CreateElement(el, v.vtype.name)];
      next := next + 1;
      els := els[v.id := el];
      MountContent(v, el, parent, anchor);
      MountProps(el, PropsEntries(v.props));
      trace := trace + [Insert(el, container, anchor)];
    }

    /** The text of the new node, or its children mounted into it. */
    method MountContent(v: VNode, el: nat, parent: Option<nat>, anchor: Option<nat>)
      requires v.vtype.Tag? && Mountable(v) && ParentOk(S(), parent)
      modifies this
      ensures S() == ElementContentS(old(S()), v, el, parent, anchor)
      decreases Size(v), 2
    {
      FlagKinds(v);
      SizeParts(v);
      if Has(v.shapeFlag, TEXT_CHILDREN) {
        trace := trace + [SetElementText(Some(el), v.children.v.s)];
      } else if Has(v.shapeFlag, ARRAY_CHILDREN) {
        MountChildren(v.children.items, Some(el), parent, anchor);
      }
    }

    /** The `for...in` loop over the props: `patchProp(el, key, null, value)` for each, in order. */
    method MountProps(el: nat, props: seq<Prop>)
      modifies this
      ensures S() == old(S()).(trace := old(trace) + MountPropOps(el, props))
    {
      ghost var s0 := S();
      for i := 0 to |props|
        invariant S() == s0.(trace := s0.trace + MountPropOps(el, props[..i]))
      {
        trace := trace + [PatchProp(Some(el), props[i].key, Null, props[i].value)];
        assert props[..i + 1][..i] == props[..i];
      }
      assert props[..|props|] == props;
    }

    method PatchElement(n1: VNode, n2: VNode, parent: Option<nat>, anchor: Option<nat>)
      requires n1.vtype.Tag? && n2.vtype.Tag? && Patchable(n1) && Patchable(n2) && ParentOk(S(), parent)
      modifies this
      ensures S() == PatchElementS(old(S()), n1, n2, parent, anchor)
      decreases Size(n2), 3
    {
      var el := El(n1);
      els := SetEl(els, n2.id, el);
      PatchChildren(n1, n2, el, parent, anchor);
      PatchProps(el, PropsRefOf(n1.props), PropsRefOf(n2.props));
    }

    method PatchChildren(n1: VNode, n2: VNode, container: Option<nat>, parent: Option<nat>, anchor: Option<nat>)
      requires n1.vtype.Tag? && n2.vtype.Tag? && Patchable(n1) && Patchable(n2) && ParentOk(S(), parent)
      modifies this
      ensures S() == PatchChildrenS(old(S()), n1, n2, container, parent, anchor)
      decreases Size(n2), 2
    {
      FlagKinds(n1);
      FlagKinds(n2);
      SizeParts(n2);
      PatchableChildren(n1);
      PatchableChildren(n2);
      if Has(n2.shapeFlag, TEXT_CHILDREN) {
        if Has(n1.shapeFlag, ARRAY_CHILDREN) {
          UnmountChildren(n1.children.items);
        }
        if n1.children != n2.children {
          trace := trace + [SetElementText(container, n2.children.v.s)];
        }
      } else if Has(n1.shapeFlag, TEXT_CHILDREN) {
        trace := trace + [SetElementText(container, "")];
        MountChildren(n2.children.items, container, parent, anchor);
      } else {
        PatchKeyedChildren(n1.children.items, n2.children.items, container, parent, anchor);
      }
    }

    method UnmountChildren(items: seq<Js>)
      requires forall i | 0 <= i < |items| :: items[i].Node?
      modifies this
      ensures S() == old(S()).(trace := old(trace) + RemoveOps(old(S()), items))
    {
      ghost var s0 := S();
      for i := 0 to |items|
        invariant S() == s0.(trace := s0.trace + RemoveOps(s0, items[..i]))
      {
        var el := El(items[i].n);
        trace := trace + [Remove(el)];
        assert items[..i + 1][..i] == items[..i];
      }
      assert items[..|items|] == items;
    }

    method PatchProps(el: Option<nat>, oldP: PropsRef, newP: PropsRef)
      modifies this
      ensures S() == PatchPropsS(old(S()), el, oldP, newP)
    {
      if !SameObject(oldP, newP) {
        PatchChangedProps(el, Entries(oldP), Entries(newP));
        if !oldP.EmptyObj? {
          RemoveOldProps(el, Entries(oldP), Entries(newP));
        }
      }
    }

    /** The first loop of `patchProps`. */
    method PatchChangedProps(el: Option<nat>, oldE: seq<Prop>, newE: seq<Prop>)
      modifies this
      ensures S() == old(S()).(trace := old(trace) + ChangedOps(el, oldE, newE))
    {
      ghost var s0 := S();
      for i := 0 to |newE|
        invariant S() == s0.(trace := s0.trace + ChangedOps(el, oldE, newE[..i]))
      {
        var prev := PropValue(oldE, newE[i].key);
        if prev != newE[i].value {
          trace := trace + [PatchProp(el, newE[i].key, prev, newE[i].value)];
        }
        assert newE[..i + 1][..i] == newE[..i];
      }
      assert newE[..|newE|] == newE;
    }

    /** The second loop of `patchProps`. */
    method RemoveOldProps(el: Option<nat>, oldE: seq<Prop>, newE: seq<Prop>)
      modifies this
      ensures S() == old(S()).(trace := old(trace) + RemovedOps(el, oldE, newE))
    {
      ghost var s0 := S();
      for j := 0 to |oldE|
        invariant S() == s0.(trace := s0.trace + RemovedOps(el, oldE[..j], newE))
      {
        if !HasProp(newE, oldE[j].key) {
          trace := trace + [PatchProp(el, oldE[j].key, oldE[j].value, Null)];
        }
        assert oldE[..j + 1][..j] == oldE[..j];
      }
      assert oldE[..|oldE|] == oldE;
    }

    method PatchKeyedChildren(c1: seq<Js>, c2: seq<Js>, container: Option<nat>, parent: Option<nat>, parentAnchor: Option<nat>)
      requires AllPatchable(c1) && AllPatchable(c2) && ParentOk(S(), parent)
      modifies this
      ensures S() == PatchKeyedS(old(S()), c1, c2, container, parent, parentAnchor)
      decreases SeqSize(c2), 10
    {
      ghost var s0 := S();
      PatchableItems(c2);
      var l2 := |c2|;
      var i, e1, e2 := Scans(c1, c2, container, parent, parentAnchor);
      ghost var sc := ScansS(s0, c1, c2, container, parent, parentAnchor);
      assert sc.st == S() && sc.i == i && sc.e1 == e1 && sc.e2 == e2;
      if i > e1 {
        if i <= e2 {
          var nextPos := e2 + 1;
          var anchor: Option<nat> := None;
          if nextPos < l2 {
            anchor := El(c2[nextPos].n);
          }
          assert anchor == AnchorOf(sc.st, c2, e2);
          assert PatchKeyedS(s0, c1, c2, container, parent, parentAnchor) == MountRangeS(sc.st, c2, i, e2, container, parent, anchor);
          MountRange(c2, i, e2, container, parent, anchor);
        }
      } else if i > e2 {
        assert PatchKeyedS(s0, c1, c2, container, parent, parentAnchor) == RemoveRangeS(sc.st, c1, i, e1);
        RemoveRange(c1, i, e1);
      }
    }

    /** Both scans of `patchKeyedChildren`, returning the three cursors. */
    method Scans(c1: seq<Js>, c2: seq<Js>, container: Option<nat>, parent: Option<nat>, anchor: Option<nat>) returns (i: nat, e1: int, e2: int)
      requires AllPatchable(c1) && AllPatchable(c2) && ParentOk(S(), parent)
      modifies this
      ensures Scan(S(), i, e1, e2) == ScansS(old(S()), c1, c2, container, parent, anchor)
      decreases SeqSize(c2), 9
    {
      ghost var s0 := S();
      i := ScanPrefix(c1, c2, container, parent, anchor);
      ghost var p := PrefixS(s0, c1, c2, 0, container, parent, anchor);
      assert p == Scan(S(), i, |c1| - 1, |c2| - 1);
      e1, e2 := ScanSuffix(c1, c2, i, |c1| - 1, |c2| - 1, container, parent, anchor);
    }

    /** The first loop of `patchKeyedChildren`; `i` is where it stopped. */
    method ScanPrefix(c1: seq<Js>, c2: seq<Js>, container: Option<nat>, parent: Option<nat>, anchor: Option<nat>) returns (i: nat)
      requires AllPatchable(c1) && AllPatchable(c2) && ParentOk(S(), parent)
      modifies this
      ensures Scan(S(), i, |c1| - 1, |c2| - 1) == PrefixS(old(S()), c1, c2, 0, container, parent, anchor)
      decreases SeqSize(c2), 8
    {
      ghost var s0 := S();
      i := 0;
      var e1 := |c1| - 1;
      var e2 := |c2| - 1;
      while i <= e1 && i <= e2
        invariant i <= |c1| && i <= |c2| && ParentOk(S(), parent)
        invariant PrefixS(s0, c1, c2, 0, container, parent, anchor) == PrefixS(S(), c1, c2, i, container, parent, anchor)
        decreases |c2| - i
      {
        if !SameType(c1[i].n, c2[i].n) {
          PrefixStop(S(), c1, c2, i, container, parent, anchor);
          break;
        }
        PatchHeads(c1, c2, i, container, parent, anchor);
        i := i + 1;
      }
      if !(i <= e1 && i <= e2) {
        PrefixStop(S(), c1, c2, i, container, parent, anchor);
      }
    }

    /** One step of the first loop: patch the two matching heads. */
    method PatchHeads(c1: seq<Js>, c2: seq<Js>, i: nat, container: Option<nat>, parent: Option<nat>, anchor: Option<nat>)
      requires AllPatchable(c1) && AllPatchable(c2) && ParentOk(S(), parent)
      requires i < |c1| && i < |c2| && SameType(c1[i].n, c2[i].n)
      modifies this
      ensures ParentOk(S(), parent)
      ensures PrefixS(old(S()), c1, c2, i, container, parent, anchor) == PrefixS(S(), c1, c2, i + 1, container, parent, anchor)
      decreases SeqSize(c2), 7
    {
      SeqSizeItem(c2, i);
      PatchableItems(c1);
      PatchableItems(c2);
      ghost var before := S();
      Patch(Some(c1[i].n), c2[i].n, container, parent, anchor);
      PrefixStep(before, c1, c2, i, container, parent, anchor);
    }

    /** The second loop of `patchKeyedChildren`, from `e1` and `e2` down to where it stopped. */
    method ScanSuffix(c1: seq<Js>, c2: seq<Js>, i: nat, e1: int, e2: int, container: Option<nat>, parent: Option<nat>, anchor: Option<nat>)
      returns (f1: int, f2: int)
      requires AllPatchable(c1) && AllPatchable(c2) && ParentOk(S(), parent)
      requires -1 <= e1 < |c1| && -1 <= e2 < |c2| && i <= e1 + 1 && i <= e2 + 1 && |c1| - e1 == |c2| - e2
      modifies this
      ensures Scan(S(), i, f1, f2) == SuffixS(old(S()), c1, c2, i, e1, e2, container, parent, anchor)
      decreases SeqSize(c2), 8
    {
      ghost var s0 := S();
      f1, f2 := e1, e2;
      while i <= f1 && i <= f2
        invariant -1 <= f1 < |c1| && -1 <= f2 < |c2| && i <= f1 + 1 && i <= f2 + 1 && |c1| - f1 == |c2| - f2
        invariant ParentOk(S(), parent)
        invariant SuffixS(s0, c1, c2, i, e1, e2, container, parent, anchor) == SuffixS(S(), c1, c2, i, f1, f2, container, parent, anchor)
        decreases f2 + 1
      {
        if !SameType(c1[f1].n, c2[f2].n) {
          SuffixStop(S(), c1, c2, i, f1, f2, container, parent, anchor);
          break;
        }
        PatchTails(c1, c2, i, f1, f2, container, parent, anchor);
        f1 := f1 - 1;
        f2 := f2 - 1;
      }
      if !(i <= f1 && i <= f2) {
        SuffixStop(S(), c1, c2, i, f1, f2, container, parent, anchor);
      }
    }

    /** One step of the second loop: patch the two matching tails. */
    method PatchTails(c1: seq<Js>, c2: seq<Js>, i: nat, f1: int, f2: int, container: Option<nat>, parent: Option<nat>, anchor: Option<nat>)
      requires AllPatchable(c1) && AllPatchable(c2) && ParentOk(S(), parent)
      requires -1 <= f1 < |c1| && -1 <= f2 < |c2| && i <= f1 + 1 && i <= f2 + 1 && |c1| - f1 == |c2| - f2
      requires i <= f1 && i <= f2 && SameType(c1[f1].n, c2[f2].n)
      modifies this
      ensures ParentOk(S(), parent)
      ensures SuffixS(old(S()), c1, c2, i, f1, f2, container, parent, anchor) == SuffixS(S(), c1, c2, i, f1 - 1, f2 - 1, container, parent, anchor)
      decreases SeqSize(c2), 7
    {
      SeqSizeItem(c2, f2);
      PatchableItems(c1);
      PatchableItems(c2);
      ghost var before := S();
      Patch(Some(c1[f1].n), c2[f2].n, container, parent, anchor);
      SuffixStep(before, c1, c2, i, f1, f2, container, parent, anchor);
    }

    /** The insertion loop of `patchKeyedChildren`. */
    method MountRange(c2: seq<Js>, i: nat, e2: int, container: Option<nat>, parent: Option<nat>, anchor: Option<nat>)
      requires AllMountable(c2) && e2 < |c2| && ParentOk(S(), parent)
      modifies this
      ensures S() == MountRangeS(old(S()), c2, i, e2, container, parent, anchor)
      decreases SeqSize(c2), 8
    {
      ghost var s0 := S();
      var j := i;
      while j <= e2
        invariant ParentOk(S(), parent)
        invariant MountRangeS(s0, c2, i, e2, container, parent, anchor) == MountRangeS(S(), c2, j, e2, container, parent, anchor)
        decreases e2 - j + 1
      {
        SeqSizeItem(c2, j);
        MountableItem(c2, j);
        Patch(None, c2[j].n, container, parent, anchor);
        j := j + 1;
      }
    }

    /** The removal loop of `patchKeyedChildren`. */
    method RemoveRange(c1: seq<Js>, i: nat, e1: int)
      requires (forall k | 0 <= k < |c1| :: c1[k].Node?) && e1 < |c1|
      modifies this
      ensures S() == RemoveRangeS(old(S()), c1, i, e1)
    {
      ghost var s0 := S();
      var j := i;
      while j <= e1
        invariant RemoveRangeS(s0, c1, i, e1) == RemoveRangeS(S(), c1, j, e1)
        decreases e1 - j + 1
      {
        var el := El(c1[j].n);
        trace := trace + [Remove(el)];
        j := j + 1;
      }
    }

    method MountComponent(v: VNode, container: Option<nat>, parent: Option<nat>, anchor: Option<nat>)
      requires v.vtype.Comp? && Mountable(v) && ParentOk(S(), parent)
      modifies this
      ensures S() == MountComponentS(old(S()), v, container, parent, anchor)
      decreases Size(v), 3
    {
      SizeParts(v);
      var made := CreateInstanceS(comps, arena, v, parent);
      SetupOk(v, made.0);
      var inst := SetupComponent(made.0).value.(container := container, anchor := anchor);
      var idx := |comps|;
      comps := comps + [inst];
      arena := made.1;
      RunEffect(idx, v.vtype.c.render);
    }

    /** One run of the render effect of instance `idx`, `tree` being what `render` returns. */
    method RunEffect(idx: nat, tree: VNode)
      requires EffectReady(S(), idx, tree)
      modifies this
      ensures S() == RenderEffectS(old(S()), idx, tree)
      decreases Size(tree), 6
    {
      var inst := comps[idx];
      comps := comps[idx := inst.(subTree := Some(tree))];
      if !inst.isMounted {
        Patch(None, tree, inst.container, Some(idx), inst.anchor);
        var el := El(tree);
        els := SetEl(els, inst.vnode.id, el);
        comps := comps[idx := comps[idx].(isMounted := true)];
      } else {
        Patch(inst.subTree, tree, inst.container, Some(idx), inst.anchor);
      }
    }

    method Render(vnode: VNode, container: nat)
      requires Mountable(vnode)
      modifies this
      ensures S() == RenderS(old(S()), vnode, container)
    {
      Patch(None, vnode, Some(container), None, None);
    }

    method MountApp(root: Component, id: nat, container: nat)
      requires Mountable(root.render)
      modifies this
      ensures S() == MountAppS(old(S()), root, id, container)
    {
      var vnode := CreateVNode(id, Comp(root), PUndefined, Prim(Undefined));
      FlagKinds(vnode);
      Render(vnode, container);
    }
  }
}
