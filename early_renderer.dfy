/**
 * The first, mount-only renderer of src/runtime-core/renderer.ts: `patch`
 * dispatches on the shape flag, elements are created, filled and appended
 * to their container, and a component renders once into the container.
 *
 * DOM calls are recorded in a trace, created nodes are numbers handed out in
 * order, and a vnode's `el` is an entry of the map `els` keyed by the vnode's
 * id. `createComponentInstance` and `setupComponent` live in a file that is
 * not part of this model: an instance here is its vnode and its `el`, and its
 * render function returns the tree stored in the component type.
 */
module EarlyRenderer {
  import opened Values
  import opened Wrappers
  import opened VNodes
  import Components
  import R = Renderer

  /** A DOM call of the early renderer. */
  datatype DomOp =
    | CreateEl(node: nat, tag: string)
    | SetTextContent(el: nat, text: string)
    | SetAttribute(el: nat, key: Key, value: Value)
    | AppendChild(parent: nat, child: nat)

  /** A component instance: the vnode it was created for and the `el` copied from its subtree. */
  datatype EInstance = EInstance(vnode: VNode, el: Option<nat>)

  /** The DOM calls so far, the next node, each vnode's `el` and the instances. */
  datatype EState = EState(trace: seq<DomOp>, next: nat, els: map<nat, nat>, insts: seq<EInstance>)

  /**
   * A tree `patch` can mount without throwing: what the flag promises is
   * there (a tag name for an element, a string for text children, an array
   * for array children, a component for a component).
   */
  predicate Renderable(v: VNode)
    decreases v
  {
    var f := v.shapeFlag;
    if Has(f, ELEMENT) then
      && v.vtype.Tag?
      && (Has(f, TEXT_CHILDREN) ==> IsString(v.children))
      && (!Has(f, TEXT_CHILDREN) && Has(f, ARRAY_CHILDREN) ==> v.children.Arr? && AllChildrenOk(v.children.items))
    else Has(f, STATEFUL_COMPONENT) ==> v.vtype.Comp? && Renderable(v.vtype.c.render)
  }

  /**
   * A child `patch` accepts: a renderable vnode, or a value whose missing
   * `shapeFlag` makes `patch` do nothing. Destructuring `null` or
   * `undefined` throws; an opaque object or a plain object may carry a
   * `shapeFlag` field of its own and is left out.
   */
  predicate ChildOk(j: Js)
    decreases j
  {
    match j
    case Node(n) => Renderable(n)
    case Prim(v) => v != Null && v != Undefined && !v.Obj?
    case Arr(_) => true
    case Slots(_) => false
  }

  predicate AllChildrenOk(items: seq<Js>)
    decreases items
  {
    forall i | 0 <= i < |items| :: ChildOk(items[i])
  }

  /** The trace only grows, nodes are never reused, instances are only added or completed. */
  predicate Grows(st: EState, r: EState)
  {
    st.trace <= r.trace && st.next <= r.next && st.insts <= r.insts
  }

  function ElOf(st: EState, v: VNode): Option<nat>
  {
    if v.id in st.els then Some(st.els[v.id]) else None
  }

  /** The `el.setAttribute(key, val)` calls, in `for...in` order. */
  function AttrOps(el: nat, entries: seq<Prop>): seq<DomOp>
  {
    if entries == [] then []
    else AttrOps(el, entries[..|entries| - 1]) + [SetAttribute(el, entries[|entries| - 1].key, entries[|entries| - 1].value)]
  }

  /** `patch(vnode, container)`: an element if the flag says so, else a component if it says so, else nothing. */
  function PatchE(st: EState, v: VNode, container: nat): (r: EState)
    requires Renderable(v)
    ensures Grows(st, r)
    decreases R.Size(v), 2
  {
    if Has(v.shapeFlag, ELEMENT) then MountElementE(st, v, container)
    else if Has(v.shapeFlag, STATEFUL_COMPONENT) then MountComponentE(st, v, container)
    else st
  }

  /** One child of `mountChildren`: a vnode is patched, any other value has no flag and does nothing. */
  function PatchChildE(st: EState, j: Js, container: nat): (r: EState)
    requires ChildOk(j)
    ensures Grows(st, r)
    decreases R.JsSize(j), 3
  {
    if j.Node? then PatchE(st, j.n, container) else st
  }

  /** `mountChildren`: each child patched into `container`, in order. */
  function MountChildrenE(st: EState, items: seq<Js>, container: nat): (r: EState)
    requires AllChildrenOk(items)
    ensures Grows(st, r)
    decreases R.SeqSize(items), 4, |items|
  {
    if items == [] then st
    else
      var n := |items| - 1;
      assert ChildOk(items[n]);
      R.SeqSizeItem(items, n);
      PatchChildE(MountChildrenE(st, items[..n], container), items[n], container)
  }

  /**
   * `mountElement`: create the node and record it as `el`, then the text or
   * the children, then one attribute per prop, then append to the container.
   */
  function MountElementE(st: EState, v: VNode, container: nat): (r: EState)
    requires Renderable(v) && Has(v.shapeFlag, ELEMENT)
    ensures Grows(st, r)
    decreases R.Size(v), 1
  {
    var el := st.next;
    var s1 := st.(trace := st.trace + [CreateEl(el, v.vtype.name)], next := st.next + 1, els := st.els[v.id := el]);
    var s2 := ElementContentE(s1, v, el);
    s2.(trace := s2.trace + AttrOps(el, Components.PropsEntries(v.props)) + [AppendChild(container, el)])
  }

  /** The content step of `mountElement`: the text, or the children mounted into the new node, or nothing. */
  function ElementContentE(s1: EState, v: VNode, el: nat): (r: EState)
    requires Renderable(v) && Has(v.shapeFlag, ELEMENT)
    ensures Grows(s1, r)
    decreases R.Size(v), 0
  {
    R.SizeParts(v);
    if Has(v.shapeFlag, TEXT_CHILDREN) then s1.(trace := s1.trace + [SetTextContent(el, v.children.v.s)])
    else if Has(v.shapeFlag, ARRAY_CHILDREN) then MountChildrenE(s1, v.children.items, el)
    else s1
  }

  /** `mountComponent`: a new instance, then its render effect. */
  function MountComponentE(st: EState, v: VNode, container: nat): (r: EState)
    requires Renderable(v) && !Has(v.shapeFlag, ELEMENT) && Has(v.shapeFlag, STATEFUL_COMPONENT)
    ensures Grows(st, r)
    decreases R.Size(v), 1
  {
    R.SizeParts(v);
    var s1 := st.(insts := st.insts + [EInstance(v, None)]);
    var r := SetupRenderEffectE(s1, |st.insts|, v.vtype.c.render, container);
    assert r.insts[..|st.insts|] == st.insts;
    r
  }

  /** `setupRenderEffect`: patch the rendered tree into the container, then copy its `el` to the instance. */
  function SetupRenderEffectE(st: EState, idx: nat, tree: VNode, container: nat): (r: EState)
    requires Renderable(tree) && idx < |st.insts|
    ensures st.trace <= r.trace && st.next <= r.next && |st.insts| <= |r.insts|
    ensures r.insts[..idx] == st.insts[..idx]
    decreases R.Size(tree), 3
  {
    var s := PatchE(st, tree, container);
    assert s.insts[..idx] == st.insts[..idx];
    s.(insts := s.insts[idx := s.insts[idx].(el := ElOf(s, tree))])
  }

  /** `render(vnode, container)`. */
  function RenderE(st: EState, v: VNode, container: nat): (r: EState)
    requires Renderable(v)
    ensures Grows(st, r)
  {
    PatchE(st, v, container)
  }

  // ----- Which `el` entries a mount writes -----

  /** The ids of the vnodes a mount records an `el` for: the elements it reaches, following the flags. */
  function Written(v: VNode): set<nat>
    decreases v
  {
    var f := v.shapeFlag;
    if Has(f, ELEMENT) then
      {v.id} + (if !Has(f, TEXT_CHILDREN) && Has(f, ARRAY_CHILDREN) && v.children.Arr? then WrittenItems(v.children.items) else {})
    else if Has(f, STATEFUL_COMPONENT) && v.vtype.Comp? then Written(v.vtype.c.render)
    else {}
  }

  function WrittenItems(items: seq<Js>): set<nat>
    decreases items
  {
    if items == [] then {} else WrittenItems(items[..|items| - 1]) + WrittenJs(items[|items| - 1])
  }

  function WrittenJs(j: Js): set<nat>
    decreases j
  {
    if j.Node? then Written(j.n) else {}
  }

  /** `b` has the same entries as `a` at every id outside `w`. */
  predicate SameOutside(a: map<nat, nat>, b: map<nat, nat>, w: set<nat>)
  {
    && (forall id | id in a && id !in w :: id in b && b[id] == a[id])
    && (forall id | id in b && id !in w :: id in a)
  }

  /** A mount changes `el` entries only for the vnodes it mounts as elements. */
  lemma {:induction false} PatchFrame(st: EState, v: VNode, container: nat)
    requires Renderable(v)
    ensures SameOutside(st.els, PatchE(st, v, container).els, Written(v))
    decreases R.Size(v), 2
  {
    if Has(v.shapeFlag, ELEMENT) {
      ElementFrame(st, v, container);
    } else if Has(v.shapeFlag, STATEFUL_COMPONENT) {
      R.SizeParts(v);
      var s1 := st.(insts := st.insts + [EInstance(v, None)]);
      PatchFrame(s1, v.vtype.c.render, container);
      assert PatchE(st, v, container) == MountComponentE(st, v, container);
      assert MountComponentE(st, v, container) == SetupRenderEffectE(s1, |st.insts|, v.vtype.c.render, container);
      assert SetupRenderEffectE(s1, |st.insts|, v.vtype.c.render, container).els == PatchE(s1, v.vtype.c.render, container).els;
    }
  }

  lemma {:induction false} ChildrenFrame(st: EState, items: seq<Js>, container: nat)
    requires AllChildrenOk(items)
    ensures SameOutside(st.els, MountChildrenE(st, items, container).els, WrittenItems(items))
    decreases R.SeqSize(items), 4, |items|
  {
    if items != [] {
      var n := |items| - 1;
      assert ChildOk(items[n]);
      R.SeqSizeItem(items, n);
      ChildrenFrame(st, items[..n], container);
      if items[n].Node? {
        PatchFrame(MountChildrenE(st, items[..n], container), items[n].n, container);
      }
    }
  }

  lemma {:induction false} ElementFrame(st: EState, v: VNode, container: nat)
    requires Renderable(v) && Has(v.shapeFlag, ELEMENT)
    ensures SameOutside(st.els, MountElementE(st, v, container).els, Written(v))
    decreases R.Size(v), 1
  {
    R.SizeParts(v);
    if !Has(v.shapeFlag, TEXT_CHILDREN) && Has(v.shapeFlag, ARRAY_CHILDREN) {
      var s1 := st.(trace := st.trace + [CreateEl(st.next, v.vtype.name)], next := st.next + 1, els := st.els[v.id := st.next]);
      ChildrenFrame(s1, v.children.items, st.next);
    }
  }

  // ----- Properties -----

  /** A vnode with neither the element nor the component bit does nothing. */
  lemma NeitherFlagIsNoop(st: EState, v: VNode, container: nat)
    requires !Has(v.shapeFlag, ELEMENT) && !Has(v.shapeFlag, STATEFUL_COMPONENT)
    ensures Renderable(v) && PatchE(st, v, container) == st
  {
  }

  /**
   * The element bit is checked first: with it, even alongside the component
   * bit, the first call creates an element of the vnode's tag; with only the
   * component bit, a new instance is created for the vnode.
   */
  lemma PatchDispatch(st: EState, v: VNode, container: nat)
    requires Renderable(v) && (Has(v.shapeFlag, ELEMENT) || Has(v.shapeFlag, STATEFUL_COMPONENT))
    ensures var r := PatchE(st, v, container);
      && (Has(v.shapeFlag, ELEMENT) ==> |r.trace| > |st.trace| && r.trace[|st.trace|] == CreateEl(st.next, v.vtype.name))
      && (!Has(v.shapeFlag, ELEMENT) ==> |r.insts| > |st.insts| && r.insts[|st.insts|].vnode == v)
  {
    if Has(v.shapeFlag, ELEMENT) {
      ElementShape(st, v, container);
    } else {
      ComponentEl(st, v, container);
    }
  }

  /** The `setAttribute` calls are one per prop, in order, each with the prop's own value. */
  lemma {:induction false} AttrOpsAll(el: nat, entries: seq<Prop>)
    ensures |AttrOps(el, entries)| == |entries|
    ensures forall k | 0 <= k < |entries| :: AttrOps(el, entries)[k] == SetAttribute(el, entries[k].key, entries[k].value)
  {
    if entries != [] {
      AttrOpsAll(el, entries[..|entries| - 1]);
    }
  }

  /**
   * Mounting an element creates a node with the vnode's tag first, appends
   * it to the container last, and sets one attribute per prop just before
   * that, in `for...in` order; an element mounts no component.
   */
  lemma ElementShape(st: EState, v: VNode, container: nat)
    requires Renderable(v) && Has(v.shapeFlag, ELEMENT)
    ensures var r := MountElementE(st, v, container);
      var es := Components.PropsEntries(v.props);
      && |r.trace| >= |st.trace| + 2 + |es|
      && r.trace[|st.trace|] == CreateEl(st.next, v.vtype.name)
      && r.trace[|r.trace| - 1] == AppendChild(container, st.next)
      && (forall k | 0 <= k < |es| :: r.trace[|r.trace| - 1 - |es| + k] == SetAttribute(st.next, es[k].key, es[k].value))
      && st.next < r.next
  {
    var el := st.next;
    var es := Components.PropsEntries(v.props);
    var s1 := st.(trace := st.trace + [CreateEl(el, v.vtype.name)], next := st.next + 1, els := st.els[v.id := el]);
    var r := MountElementE(st, v, container);
    var s2 := ElementContentE(s1, v, el);
    assert r == s2.(trace := s2.trace + AttrOps(el, es) + [AppendChild(container, el)]);
    ElementTraceLayout(st.trace, CreateEl(el, v.vtype.name), s2.trace, el, es, AppendChild(container, el));
  }

  /**
   * Where the parts of `mid + AttrOps(el, es) + [last]` sit, when `mid`
   * extends `pre + [first]`.
   */
  lemma ElementTraceLayout(pre: seq<DomOp>, first: DomOp, mid: seq<DomOp>, el: nat, es: seq<Prop>, last: DomOp)
    requires pre + [first] <= mid
    ensures var t := mid + AttrOps(el, es) + [last];
      && |t| >= |pre| + 2 + |es|
      && t[|pre|] == first && t[|t| - 1] == last
      && forall k | 0 <= k < |es| :: t[|t| - 1 - |es| + k] == SetAttribute(el, es[k].key, es[k].value)
  {
    AttrOpsAll(el, es);
    var ops := AttrOps(el, es);
    var t := mid + ops + [last];
    assert mid[|pre|] == (pre + [first])[|pre|];
    forall k | 0 <= k < |es|
      ensures t[|t| - 1 - |es| + k] == SetAttribute(el, es[k].key, es[k].value)
    {
      assert t[|mid| + k] == ops[k];
    }
  }

  /**
   * Text children become the node's `textContent`, right after it is
   * created; no other node and no instance is created.
   */
  lemma TextChildren(st: EState, v: VNode, container: nat)
    requires Renderable(v) && Has(v.shapeFlag, ELEMENT) && Has(v.shapeFlag, TEXT_CHILDREN)
    ensures var r := MountElementE(st, v, container);
      && |r.trace| == |st.trace| + 3 + |Components.PropsEntries(v.props)|
      && r.trace[|st.trace| + 1] == SetTextContent(st.next, v.children.v.s)
      && r.next == st.next + 1 && r.insts == st.insts
  {
    AttrOpsAll(st.next, Components.PropsEntries(v.props));
  }

  /**
   * Child `k` of `mountChildren` is mounted after children `0..k-1`: when it
   * is an element, its node is the next one at that point, and it is
   * appended to the container the children are mounted into.
   */
  lemma ChildMountedInto(st: EState, items: seq<Js>, k: nat, container: nat)
    requires AllChildrenOk(items) && k < |items| && items[k].Node? && Has(items[k].n.shapeFlag, ELEMENT)
    ensures Renderable(items[k].n)
    ensures var m := MountChildrenE(st, items[..k], container);
      var p := PatchE(m, items[k].n, container);
      var r := MountChildrenE(st, items, container);
      && p.trace <= r.trace && |m.trace| < |p.trace|
      && r.trace[|m.trace|] == CreateEl(m.next, items[k].n.vtype.name)
      && r.trace[|p.trace| - 1] == AppendChild(container, m.next)
  {
    assert ChildOk(items[k]);
    var v := items[k].n;
    ChildrenSlicesOk(items, k);
    var m := MountChildrenE(st, items[..k], container);
    var p := PatchE(m, v, container);
    MountChildrenSnoc(st, items, k, container);
    MountChildrenSplit(st, items[..k + 1], items[k + 1..], container);
    assert items[..k + 1] + items[k + 1..] == items;
    var r := MountChildrenE(p, items[k + 1..], container);
    assert MountChildrenE(st, items, container) == r;
    assert p == MountElementE(m, v, container);
    ElementShape(m, v, container);
    assert p.trace <= r.trace;
    assert r.trace[|m.trace|] == p.trace[|m.trace|];
    assert r.trace[|p.trace| - 1] == p.trace[|p.trace| - 1];
  }

  /** The slices `..k`, `..k + 1` and `k + 1..` of acceptable children are acceptable. */
  lemma ChildrenSlicesOk(items: seq<Js>, k: nat)
    requires AllChildrenOk(items) && k < |items|
    ensures AllChildrenOk(items[..k]) && AllChildrenOk(items[..k + 1]) && AllChildrenOk(items[k + 1..])
  {
    var init := items[..k];
    var head := items[..k + 1];
    var tail := items[k + 1..];
    forall i | 0 <= i < |head| ensures ChildOk(head[i]) { assert head[i] == items[i]; }
    forall i | 0 <= i < |init| ensures ChildOk(init[i]) { assert init[i] == items[i]; }
    forall i | 0 <= i < |tail| ensures ChildOk(tail[i]) { assert tail[i] == items[k + 1 + i]; }
  }

  /** Mounting `items[..k + 1]` is mounting `items[..k]`, then child `k`. */
  lemma MountChildrenSnoc(st: EState, items: seq<Js>, k: nat, container: nat)
    requires AllChildrenOk(items) && k < |items| && items[k].Node?
    ensures AllChildrenOk(items[..k]) && AllChildrenOk(items[..k + 1]) && Renderable(items[k].n)
    ensures MountChildrenE(st, items[..k + 1], container) == PatchE(MountChildrenE(st, items[..k], container), items[k].n, container)
  {
    assert ChildOk(items[k]);
    ChildrenSlicesOk(items, k);
    assert items[..k + 1][..k] == items[..k];
    assert items[..k + 1][k] == items[k];
  }

  /** Mounting a list of children is mounting its first part, then the rest: the children go in order. */
  lemma {:induction false} MountChildrenSplit(st: EState, a: seq<Js>, b: seq<Js>, container: nat)
    requires AllChildrenOk(a) && AllChildrenOk(b)
    ensures AllChildrenOk(a + b)
    ensures MountChildrenE(st, a + b, container) == MountChildrenE(MountChildrenE(st, a, container), b, container)
    decreases |b|
  {
    assert forall i | 0 <= i < |a + b| :: (a + b)[i] == if i < |a| then a[i] else b[i - |a|];
    if b == [] {
      assert a + b == a;
    } else {
      var n := |b| - 1;
      assert ChildOk(b[n]);
      MountChildrenSplit(st, a, b[..n], container);
      assert (a + b)[..|a + b| - 1] == a + b[..n];
      assert (a + b)[|a + b| - 1] == b[n];
    }
  }

  /** An element none of whose mounted descendants shares its id. */
  predicate OwnElKept(v: VNode)
  {
    !Has(v.shapeFlag, TEXT_CHILDREN) && Has(v.shapeFlag, ARRAY_CHILDREN) && v.children.Arr? ==> v.id !in WrittenItems(v.children.items)
  }

  /**
   * `mountElement` records the created node as the vnode's `el`, unless a
   * descendant with the same id overwrote it.
   */
  lemma ElementRecordsEl(st: EState, v: VNode, container: nat)
    requires Renderable(v) && Has(v.shapeFlag, ELEMENT) && OwnElKept(v)
    ensures ElOf(MountElementE(st, v, container), v) == Some(st.next)
  {
    var el := st.next;
    var s1 := st.(trace := st.trace + [CreateEl(el, v.vtype.name)], next := st.next + 1, els := st.els[v.id := el]);
    if !Has(v.shapeFlag, TEXT_CHILDREN) && Has(v.shapeFlag, ARRAY_CHILDREN) {
      ChildrenFrame(s1, v.children.items, el);
    }
  }

  /**
   * The render effect gives the new instance the `el` of its rendered tree:
   * the tree's own node when the tree is an element. A component vnode's own
   * `el` is never written, so a component whose tree is another component
   * gets no `el`.
   */
  lemma ComponentEl(st: EState, v: VNode, container: nat)
    requires Renderable(v) && !Has(v.shapeFlag, ELEMENT) && Has(v.shapeFlag, STATEFUL_COMPONENT)
    ensures var r := MountComponentE(st, v, container);
      var tree := v.vtype.c.render;
      && |r.insts| > |st.insts|
      && r.insts[|st.insts|] == EInstance(v, ElOf(r, tree))
      && (v.id !in Written(tree) ==> ElOf(r, v) == ElOf(st, v))
      && (Has(tree.shapeFlag, ELEMENT) && OwnElKept(tree) ==> r.insts[|st.insts|].el == Some(st.next))
  {
    var tree := v.vtype.c.render;
    var s1 := st.(insts := st.insts + [EInstance(v, None)]);
    PatchFrame(s1, tree, container);
    if Has(tree.shapeFlag, ELEMENT) && OwnElKept(tree) {
      ElementRecordsEl(s1, tree, container);
    }
  }

  // ----- The renderer, in place -----

  class Renderer {
    var trace: seq<DomOp>
    var next: nat
    var els: map<nat, nat>
    var insts: seq<EInstance>

    function S(): EState
      reads this
    {
      EState(trace, next, els, insts)
    }

    /** A renderer whose first created node is `first`. */
    constructor (first: nat)
      ensures S() == EState([], first, map[], [])
    {
      trace := [];
      next := first;
      els := map[];
      insts := [];
    }

    method Render(v: VNode, container: nat)
      requires Renderable(v)
      modifies this
      ensures S() == RenderE(old(S()), v, container)
    {
      Patch(v, container);
    }

    method Patch(v: VNode, container: nat)
      requires Renderable(v)
      modifies this
      ensures S() == PatchE(old(S()), v, container)
      decreases R.Size(v), 2
    {
      if Has(v.shapeFlag, ELEMENT) {
        MountElement(v, container);
      } else if Has(v.shapeFlag, STATEFUL_COMPONENT) {
        MountComponent(v, container);
      }
    }

    method MountElement(v: VNode, container: nat)
      requires Renderable(v) && Has(v.shapeFlag, ELEMENT)
      modifies this
      ensures S() == MountElementE(old(S()), v, container)
      decreases R.Size(v), 1
    {
      ghost var s0 := S();
      var el := next;
      trace := trace + [CreateEl(el, v.vtype.name)];
      next := next + 1;
      els := els[v.id := el];
      MountContent(v, el);
      var props := Components.PropsEntries(v.props);
      SetAttributes(el, props);
      trace := trace + [AppendChild(container, el)];
    }

    /** The text of the new node, or its children mounted into it. */
    method MountContent(v: VNode, el: nat)
      requires Renderable(v) && Has(v.shapeFlag, ELEMENT)
      modifies this
      ensures S() == ElementContentE(old(S()), v, el)
      decreases R.Size(v), 0
    {
      R.SizeParts(v);
      if Has(v.shapeFlag, TEXT_CHILDREN) {
        trace := trace + [SetTextContent(el, v.children.v.s)];
      } else if Has(v.shapeFlag, ARRAY_CHILDREN) {
        MountChildren(v.children.items, el);
      }
    }

    /** The `for...in` loop over the props: one `setAttribute` per prop, in order. */
    method SetAttributes(el: nat, props: seq<Prop>)
      modifies this
      ensures S() == old(S()).(trace := old(trace) + AttrOps(el, props))
    {
      ghost var s0 := S();
      for i := 0 to |props|
        invariant S() == s0.(trace := s0.trace + AttrOps(el, props[..i]))
      {
        trace := trace + [SetAttribute(el, props[i].key, props[i].value)];
        assert props[..i + 1][..i] == props[..i];
      }
      assert props[..|props|] == props;
    }

    /** `vnode.children.forEach(v => patch(v, container))`. */
    method MountChildren(items: seq<Js>, container: nat)
      requires AllChildrenOk(items)
      modifies this
      ensures S() == MountChildrenE(old(S()), items, container)
      decreases R.SeqSize(items), 4
    {
      ghost var s0 := S();
      for i := 0 to |items|
        invariant S() == MountChildrenE(s0, items[..i], container)
      {
        assert ChildOk(items[i]);
        assert items[..i + 1][..i] == items[..i];
        R.SeqSizeItem(items, i);
        if items[i].Node? {
          Patch(items[i].n, container);
        }
      }
      assert items[..|items|] == items;
    }

    method MountComponent(v: VNode, container: nat)
      requires Renderable(v) && !Has(v.shapeFlag, ELEMENT) && Has(v.shapeFlag, STATEFUL_COMPONENT)
      modifies this
      ensures S() == MountComponentE(old(S()), v, container)
      decreases R.Size(v), 1
    {
      R.SizeParts(v);
      var idx := |insts|;
      insts := insts + [EInstance(v, None)];
      SetupRenderEffect(idx, v.vtype.c.render, container);
    }

    method SetupRenderEffect(idx: nat, tree: VNode, container: nat)
      requires Renderable(tree) && idx < |insts|
      modifies this
      ensures S() == SetupRenderEffectE(old(S()), idx, tree, container)
      decreases R.Size(tree), 3
    {
      Patch(tree, container);
      var el := if tree.id in els then Some(els[tree.id]) else None;
      insts := insts[idx := insts[idx].(el := el)];
    }
  }
}
