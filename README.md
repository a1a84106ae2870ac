# mini-vue core in Dafny

This project models the core of mini-vue, a small re-implementation of Vue 3.
Each part below is a Dafny module with the entities, operations and proved
properties of one part of the runtime.

- **Reactivity.** `DepGraph` and `Effect` model `targetMap`, the per-key
  dependency Sets and `ReactiveEffect`. This covers `track`, `trigger`, `run`,
  `stop` and `effect` of `packages/reactivity/src/effect.ts`, plus the
  identical copy in the bundle.
- **Proxy handlers.** `Handlers` models the `get`/`set` traps of
  `reactive`, `readonly` and `shallowReadonly` over an arena of plain
  objects and proxies. A proxy's target may itself be a proxy.
- **Refs.** `Refs` models `RefImpl` (raw value versus converted value),
  `isRef` and `proxyRefs`. It also models the early `RefImpl` of
  `src/reactivity/ref.ts`.
- **Early reactivity.** `EarlyReactivity` models the first reactivity of
  `src/reactivity`. It has no `shouldTrack`, `activeEffect` is never
  reset, and `trigger` throws when no Set exists.
- **Virtual nodes and slots.** `VNodes`, `Slots`, `Components` and
  `ComponentEmit` model:
  - `createVNode` and the shape-flag bits;
  - the slot forms and `renderSlots`;
  - component instances, `provide`/`inject` over prototype chains, and
    the instance proxy's lookup order;
  - `emit` with `camelize`/`toHandlerKey`.
- **Renderer.** `Renderer` models `createRenderer` of the bundle:
  - `patch` dispatch, mounting, `patchProps` and `patchChildren`;
  - the keyed diff, with its two scans and then insertion or removal;
  - the component render effect.

  Every host call goes into a trace. The class `Renderer.Renderer` runs
  the source's loops in place. It is proved equal to the spec functions,
  and the lemmas state their properties.
- **Early renderer.** `EarlyRenderer` models the first, mount-only renderer
  of `src/runtime-core/renderer.ts`. It records DOM calls, each vnode's
  `el`, and the component instances.
- **Template parser.** `Compiler` models the parser of `lib/compiler.cjs.js`:
  `baseParse`, `parseChildren`, tags, interpolation and text. It also models
  the JavaScript string operations they use: `slice` with negative
  indices, `indexOf`, `trim`, and the `/[a-z]/i` tests.

User code enters the model as data or as oracle parameters:

- an effect's function is the list of Sets its reads track, plus its
  result;
- a component's `render` is the tree it returns;
- a slot function or an `inject` default is a function parameter.

A JavaScript value is `Values.Value`. A number is an integer, so `===`,
`Object.is` and `hasChanged` are all equality.

## Model

| member | source | states |
|---|---|---|
| DepGraph.SetSubs | packages/reactivity/src/effect.ts:69-79 | After creating the target's map and the key's Set, the Set exists with exactly the given members. No other Set's members or existence change. |
| DepGraph.Added | packages/reactivity/src/effect.ts:87-90 | `Set.add`: membership is the old members plus the new one. No duplicate is introduced. A present member leaves the Set unchanged. The old members keep their order at the front. |
| DepGraph.Removed | packages/reactivity/src/effect.ts:46-48 | `Set.delete`: membership is the old members minus the deleted one. No duplicate is introduced. An absent member leaves the Set unchanged. |
| DepGraph.SubscribeAll | packages/reactivity/src/effect.ts:85-91 | The tracks of one run change only the `deps` lists of effects, never another effect field, and create no ref Set. |
| DepGraph.CleanupDeps | packages/reactivity/src/effect.ts:45-51 | `cleanupEffect`'s loop changes no effect record and creates no ref Set. |
| DepGraph.SubscribeToEffect | packages/reactivity/src/effect.ts:85-91 | One `trackEffects`: the Set becomes `Added(old members, e)`. It exists afterwards unless it did not exist and `e` was already a member. No other Set changes, no other effect changes, and `e` changes only in its `deps`. |
| DepGraph.SubscribeToIdempotent | packages/reactivity/src/effect.ts:85-91 | Tracking the same Set twice equals tracking it once (the `dep.has` early return). |
| DepGraph.SubscribeToConsistent | packages/reactivity/src/effect.ts:85-91 | A subscription of an active effect preserves the graph invariant: an effect is in a Set exactly when the Set is in its `deps`; there are no duplicates; stopped effects are in no Set. |
| DepGraph.SubscribeAllConsistent | packages/reactivity/src/effect.ts:16-32 | A whole run's tracks preserve the graph invariant and touch only `deps` lists. |
| DepGraph.SubscribeAllSubscribes | packages/reactivity/src/effect.ts:56-91 | After a run, the effect is a member of every Set its function read, and each such Set exists. |
| DepGraph.SubscribeAllKeepsMemberSet | packages/reactivity/src/effect.ts:103-111 | Running a member of Set `d` leaves `d`'s members and existence unchanged. So the `for...of` in `triggerEffects` iterates a Set its own runs do not grow. |
| DepGraph.CleanupDepsEffect | packages/reactivity/src/effect.ts:45-51 | After `cleanupEffect`'s loop, every Set in the list has the effect removed, every other Set is unchanged, and the Sets in the list exist. |
| DepGraph.StopUnsubscribes | packages/reactivity/src/effect.ts:34-51 | `stop()` of an active effect removes it from every Set and from no other, keeps the order of the other members, empties its `deps` and preserves the invariant. |
| DepGraph.StopIdempotent | packages/reactivity/src/effect.ts:34-42 | After `stop()` the effect is inactive, and a second `stop()` changes nothing. |
| DepGraph.SubscribeAllKeepsDeps | packages/reactivity/src/effect.ts:16-32 | A run only appends to the effect's `deps`: stale dependencies are never cleared. |
| DepGraph.CreateKeyDepFacts | packages/reactivity/src/effect.ts:69-79 | Creating the target's map and the key's Set adds an empty Set and changes no member of any Set. It preserves the invariant and does not change the following subscription. |
| DepGraph.AppendEffectConsistent | packages/reactivity/src/effect.ts:113-114 | A new effect starts with no `deps`, and adding it preserves the invariant. |
| DepGraph.EmptyConsistent | packages/reactivity/src/effect.ts:55 | The empty `targetMap` at module load satisfies the invariant. |
| DepGraph.AppendRefDepConsistent | lib/x-mini-vue.cjs.js:737 | A new ref's empty Set preserves the invariant. |
| Effect.TrackS | packages/reactivity/src/effect.ts:56-94 | `track` is a no-op unless `isTracking()`. Otherwise the active effect is a member of the Set afterwards and the Set exists. No other Set changes. |
| Effect.RunS | packages/reactivity/src/effect.ts:16-32 | `run()` records exactly one call of the function and changes effect records only in `deps`. |
| Effect.Notifications | packages/reactivity/src/effect.ts:103-111 | One call per subscriber, in order: its scheduler if it has one, else `run`. |
| Effect.NotifyS | packages/reactivity/src/effect.ts:105-109 | Notifying one subscriber appends exactly its `Notification` call. |
| Effect.RunValid | packages/reactivity/src/effect.ts:16-32 | Running any effect, active or stopped, preserves the runtime invariant. |
| Effect.TrackValid | packages/reactivity/src/effect.ts:56-91 | `track` preserves the runtime invariant. |
| Effect.RunActive | packages/reactivity/src/effect.ts:16-32 | After a run of an active effect, it is subscribed to every Set it read and keeps every Set it was in. `activeEffect` still points to it and `shouldTrack` is false. |
| Effect.RunStoppedOutside | packages/reactivity/src/effect.ts:18-20 | Outside any run, a stopped effect's function is called and nothing is tracked. |
| Effect.StopTwice | packages/reactivity/src/effect.ts:34-42 | The first `stop()` removes the effect from every Set and calls `onStop` once, only when it was active and has one. A second `stop()` changes nothing. |
| Effect.StopValid | packages/reactivity/src/effect.ts:34-51 | `stop()` preserves the runtime invariant. |
| Effect.NotifyKeepsSet | packages/reactivity/src/effect.ts:103-111 | Notifying a member of Set `d` preserves the invariant and leaves `d`'s members unchanged. |
| Effect.NotifyAllCalls | packages/reactivity/src/effect.ts:103-111 | `triggerEffects` appends exactly the subscribers' notifications, in the Set's order. |
| Effect.TrackReadsS | packages/reactivity/src/effect.ts:56-91 | A function's reads in order change effect records only in `deps`. They create no ref Set and leave `activeEffect`, `shouldTrack` and the calls unchanged. |
| Effect.TrackReadsValid | packages/reactivity/src/effect.ts:56-91 | A function's reads preserve the runtime invariant and delete no Set. |
| Effect.NotifyAllS | packages/reactivity/src/effect.ts:103-111 | Notifying a sequence of subscribers changes effect records only in `deps` and creates no ref Set. |
| Effect.NotifyAllValid | packages/reactivity/src/effect.ts:103-111 | Notifying members of Set `d` one after the other can run each of them. It preserves the invariant, keeps `d`'s members and deletes no Set. |
| Effect.MembersRunnable | packages/reactivity/src/effect.ts:34-51 | In a consistent graph, every member of a Set is an existing, active effect. So `triggerEffects` never runs a stopped effect. |
| Effect.TriggerS | packages/reactivity/src/effect.ts:96-101 | `trigger` of a Set whose members can run yields a well-formed state. |
| Effect.TriggersS | packages/reactivity/src/effect.ts:96-111 | A sequence of `trigger`s preserves the invariant and deletes no Set. |
| Effect.Tracker.SetDep | packages/reactivity/src/effect.ts:87-90 | An in-place `Set.add` or `Set.delete` replaces the Set's members as `SetSubs` says and changes nothing else. |
| Effect.TrackedWriteReruns | packages/reactivity/src/effect.ts:56-111 | A field read during an effect's run, followed by `trigger` on that field, calls the effect's scheduler, or re-runs the effect when it has none. |
| Effect.EffectRunsOnce | packages/reactivity/src/effect.ts:113-123 | `effect(fn)` runs `fn` exactly once at once, makes the new effect active, subscribes it to everything it read and preserves the invariant. |
| Effect.TriggerValid | packages/reactivity/src/effect.ts:96-111 | `trigger` can run every subscriber, preserves the invariant and deletes no Set. |
| Effect.Tracker.constructor | packages/reactivity/src/effect.ts:3-4 | Module load: empty `targetMap`, with `activeEffect` and `shouldTrack` unset. |
| Effect.Tracker.NewRefDep | lib/x-mini-vue.cjs.js:737 | `new Set()` for a ref adds one empty Set and changes nothing else. |
| Effect.Tracker.TrackEffects | packages/reactivity/src/effect.ts:85-91 | The in-place `trackEffects` equals `TrackS` and keeps the invariant. |
| Effect.Tracker.Track | packages/reactivity/src/effect.ts:56-82 | The in-place `track`, which creates the map and the Set on first use, equals `TrackS` and keeps the invariant. |
| Effect.Tracker.TrackRead | packages/reactivity/src/effect.ts:56-91 | A field read or ref read, in place, equals `TrackS`. |
| Effect.Tracker.Run | packages/reactivity/src/effect.ts:16-32 | The in-place `run` equals `RunS`, keeps the invariant and returns the function's result. |
| Effect.Tracker.DeleteFromAll | packages/reactivity/src/effect.ts:46-48 | The `forEach` of `dep.delete` equals `CleanupDeps`. |
| Effect.Tracker.CleanupEffect | packages/reactivity/src/effect.ts:45-51 | `cleanupEffect` deletes the effect from its Sets, then empties `deps`. |
| Effect.Tracker.Stop | packages/reactivity/src/effect.ts:34-42 | The in-place `stop` equals `StopS` and keeps the invariant. |
| Effect.Tracker.Notify | packages/reactivity/src/effect.ts:105-109 | One subscriber is notified in place, as `NotifyS` says. |
| Effect.Tracker.TriggerEffects | packages/reactivity/src/effect.ts:103-111 | The loop over the live Set equals `TriggerS`; every member can run; the invariant holds. |
| Effect.Tracker.Trigger | packages/reactivity/src/effect.ts:96-101 | `trigger(target, key)` equals `TriggerS` on that Set. |
| Effect.Tracker.Effect | packages/reactivity/src/effect.ts:113-123 | `effect(fn, options)` returns the new effect and equals `EffectS`. |
| Handlers.GetS | packages/reactivity/src/baseHandlers.ts:12-39 | The `get` trap allocates only proxies whose targets exist, returns a value that exists, and tracks only `(target, key)` of some proxy on the chain. |
| Handlers.SetS | packages/reactivity/src/baseHandlers.ts:42-70 | The `set` trap changes no proxy, turns no object into a proxy and allocates nothing. |
| Handlers.Base | packages/reactivity/src/baseHandlers.ts:23 | Following the chain of targets ends at a plain object at or before the proxy. |
| Handlers.GetTracksMutableOnly | packages/reactivity/src/baseHandlers.ts:25-36 | Every `track` a read makes is of `(target, key)` for a deep mutable proxy on the chain. Readonly and shallow proxies never track. |
| Handlers.SentinelKeys | packages/reactivity/src/baseHandlers.ts:14-21 | `__v_isReactive`, `__v_isReadonly` and `__v_raw` answer from the handler's flags and target. They do not read or track. |
| Handlers.GetOverPlainObject | packages/reactivity/src/baseHandlers.ts:23-37 | Over a plain object: shallow returns the field untracked. Deep wraps an object field in a new readonly or reactive proxy, following the parent. Only deep mutable tracks, and only a non-object field. |
| Handlers.SetEffect | packages/reactivity/src/baseHandlers.ts:42-70 | Through mutable proxies, a write changes only the base object's key and ends with a trigger of the outer proxy's `(target, key)`; nothing warns. A chain with a readonly proxy changes nothing and warns exactly once. |
| Handlers.GetAfterSet | packages/reactivity/src/baseHandlers.ts:12-48 | After a `set` of a non-object value through mutable proxies, a `get` of the same key returns that value. |
| Handlers.Store.CreateReactiveObject | lib/x-mini-vue.cjs.js:243-245 | `new Proxy(raw, handlers)` throws on a non-object. Otherwise it appends exactly one new proxy over `raw`, distinct from `raw`. |
| Handlers.Store.Reactive | lib/x-mini-vue.cjs.js:246-248 | A new mutable proxy, or TypeError on a non-object. |
| Handlers.Store.Readonly | lib/x-mini-vue.cjs.js:251-253 | A new readonly proxy, or TypeError on a non-object. |
| Handlers.Store.ShallowReadonly | lib/x-mini-vue.cjs.js:254-256 | A new shallow readonly proxy, or TypeError on a non-object. |
| Handlers.Store.Get | packages/reactivity/src/baseHandlers.ts:12-39 | The in-place trap returns `GetS`'s value, appends its proxies and performs exactly its tracks. |
| Handlers.Store.Set | packages/reactivity/src/baseHandlers.ts:42-70 | The in-place trap leaves `SetS`'s heap, appends its warnings, performs its triggers in order and returns true. |
| Refs.TrackRefValue | lib/x-mini-vue.cjs.js:761-765 | `trackRefValue` is `TrackS` on the ref's Set. |
| Refs.Convert | lib/x-mini-vue.cjs.js:766-768 | An object becomes a new reactive proxy; any other value is returned unchanged. |
| Refs.RefImpl.constructor | lib/x-mini-vue.cjs.js:731-738 | The raw value is kept, the value is converted, and a new empty Set is made. |
| Refs.RefImpl.GetValue | lib/x-mini-vue.cjs.js:739-747 | `get value` returns the converted value and tracks the ref's Set. |
| Refs.RefImpl.SetValue | lib/x-mini-vue.cjs.js:748-759 | When the new value differs from the raw value, both values are updated and the Set is triggered. Otherwise nothing changes. |
| Refs.EarlyRefImpl.constructor | src/reactivity/ref.ts:4-10 | The value is stored as given, with a new empty Set. |
| Refs.EarlyRefImpl.GetValue | src/reactivity/ref.ts:11-19 | Returns the value and tracks the ref's Set. |
| Refs.EarlyRefImpl.SetValue | src/reactivity/ref.ts:20-28 | A changed value is stored and then triggered; an equal one changes nothing. |
| Refs.IsRef | lib/x-mini-vue.cjs.js:772-774 | `isRef` is true exactly on refs and throws exactly on `undefined` and `null`. |
| Refs.ProxyRefs.constructor | lib/x-mini-vue.cjs.js:778-779 | The proxy wraps the given object. |
| Refs.ProxyRefs.Get | lib/x-mini-vue.cjs.js:780-782 | A ref field reads its value and tracks. Another field is returned as is. A missing, undefined or null field throws in `isRef`. |
| Refs.ProxyRefs.Set | lib/x-mini-vue.cjs.js:783-793 | A non-ref value written over a ref field goes through the ref's `value` setter, and the trap returns it. When the value differs from the ref's raw value, the ref stores it as its raw value and its converted form as `value` (an object becomes a new reactive proxy), and the ref's Set is triggered. Otherwise nothing changes. Ref over ref, or any value over a plain field, replaces the field and returns true. Undefined or null on either side throws. |
| VNodes.CreateVNode | lib/x-mini-vue.cjs.js:7-29 | The vnode keeps its type, props and children, and its key is `props.key`. |
| VNodes.ShapeFlagBits | lib/x-mini-vue.cjs.js:7-37 | ELEMENT iff the type is a string, else STATEFUL_COMPONENT. TEXT_CHILDREN iff children is a string; ARRAY_CHILDREN iff an array. SLOT_CHILDREN iff a component with object children (arrays and null included). No other bit is set. |
| VNodes.H | lib/x-mini-vue.cjs.js:39-41 | `h` is `createVNode`: the vnode keeps its id, type, props and children, its key is `props.key`, and its flag is the one `createVNode` computes. |
| VNodes.CreateTextVNode | lib/x-mini-vue.cjs.js:30-32 | A `Text` vnode of the string, with no key and flags STATEFUL_COMPONENT plus TEXT_CHILDREN. |
| Slots.NormalizeObjectSlotsFacts | lib/x-mini-vue.cjs.js:320-346 | Every property of the children object becomes a normalizing slot over its last value. The other slots are kept. |
| Slots.LastWithNamed | lib/x-mini-vue.cjs.js:321-322 | The enumeration finds a value for exactly the names present. |
| Slots.InitSlotsForms | lib/x-mini-vue.cjs.js:289-319 | A vnode child, or an object literal whose own `shapeFlag` property is truthy, becomes `default: [children]`. An array becomes `default` itself. Any other object literal is normalized. Null throws, and a primitive leaves the slots unchanged. |
| Slots.SlotsObject.constructor | lib/x-mini-vue.cjs.js:355 | The slots object starts empty. |
| Slots.SlotsObject.NormalizeObjectSlots | lib/x-mini-vue.cjs.js:320-346 | The `for...in` loop equals `NormalizeObjectSlotsS`. |
| Slots.SlotsObject.InitSlots | lib/x-mini-vue.cjs.js:289-319 | Succeeds exactly when `InitSlotsS` does and leaves its slots. On a throw the slots are unchanged. |
| Slots.RenderSlots | lib/x-mini-vue.cjs.js:43-55 | A missing slot gives nothing. A normalizing slot gives a Fragment over the normalized result of calling it, or throws if it is not a function. A stored function or array gives a Fragment over its result or itself. |
| Slots.NamedSlotRenders | lib/x-mini-vue.cjs.js:43-55 | A named function slot from an object literal renders a Fragment over the array of its result, with ARRAY_CHILDREN and SLOT_CHILDREN flags. |
| Slots.EarlyRenderSlots | src/runtime-core/helpers/renderSlots.ts:3-15 | The early `renderSlots` makes a `div` element over a function slot's result or an array slot. It returns nothing for a missing or other slot. |
| Slots.EarlySlotsFacts | src/runtime-core/componentSlots.ts:3-13 | The early slots object has exactly one property per key of `children`, each the normalized last value. |
| Slots.EarlySlotsByLast | src/runtime-core/componentSlots.ts:7-10 | Each key holds the normalized value of its last enumeration. |
| Slots.EarlyInstance.constructor | src/runtime-core/componentSlots.ts:6 | The slots object starts empty. |
| Slots.EarlyInstance.InitSlots | src/runtime-core/componentSlots.ts:3-13 | The loop leaves `EarlySlotsS(children)`. |
| Components.LookupOnChain | lib/x-mini-vue.cjs.js:424 | `key in provides` holds iff some object on the prototype chain owns the key. |
| Components.CreateInstanceS | lib/x-mini-vue.cjs.js:351-366 | A child shares its parent's provides object; a root gets a new empty one. The instance is unmounted, with empty props and slots. |
| Components.SetupComponent | lib/x-mini-vue.cjs.js:367-371 | Setup succeeds iff `initSlots` does. The props are the vnode's props and the slots are `initSlots`'s. |
| Components.ProvideKeepsParent | lib/x-mini-vue.cjs.js:408-418 | `provide` never writes the parent's provides object. The current instance gets its own object, chained to the parent's; every other object is unchanged; the key is then found with the provided value. |
| Components.InjectS | lib/x-mini-vue.cjs.js:419-433 | No instance gives undefined, and a root throws. A key on the parent's chain gives its value. A function default is called; a truthy default is returned; a falsy one gives undefined. |
| Components.ProvideThenInject | lib/x-mini-vue.cjs.js:408-433 | A child of the providing instance injects the provided value. |
| Components.PublicGetMeaning | lib/x-mini-vue.cjs.js:262-276 | The proxy answers `undefined` exactly when the key is neither an own `setupState` key, nor an own prop, nor `$el` or `$slots`. A prop answer is the value of one of the props' own entries under that key. A `setupState` key or a prop named `$el` or `$slots` shadows the public property. |
| Components.PropFound | lib/x-mini-vue.cjs.js:268-269 | A prop the proxy finds has that prop's own value. |
| Components.ComponentStore.constructor | lib/x-mini-vue.cjs.js:351 | No instances and no provides objects. |
| Components.ComponentStore.CreateComponentInstance | lib/x-mini-vue.cjs.js:351-366 | Appends `CreateInstanceS`'s instance, with its provides object if new, and keeps the store's invariant. |
| Components.ComponentStore.Provide | lib/x-mini-vue.cjs.js:408-418 | In place, `provide` equals `ProvideS`. It is unchanged on a throw and keeps the invariant. |
| ComponentEmit.Camelize | lib/x-mini-vue.cjs.js:66-70 | `camelize` never lengthens the name. |
| ComponentEmit.CamelizeWithoutDash | lib/x-mini-vue.cjs.js:66-70 | A name without `-` is unchanged. |
| ComponentEmit.CamelizeHyphenate | lib/x-mini-vue.cjs.js:66-70 | `camelize` inverts hyphenation of every dash-free string. |
| ComponentEmit.CamelizeAddFoo | lib/x-mini-vue.cjs.js:66-70 | `camelize("add-foo")` is `"addFoo"`. |
| ComponentEmit.ToHandlerKey | lib/x-mini-vue.cjs.js:74-76 | The empty name gives `""`; otherwise `"on"` plus the capitalized name. |
| ComponentEmit.EventOfHandlerKey | lib/x-mini-vue.cjs.js:74-76 | The event name is recovered from its handler key when it does not start upper-case. |
| ComponentEmit.Emit | packages/runtime-core/src/componentEmit.ts:3-8 | A falsy handler is skipped. A function handler is called once with the arguments. Any other truthy handler throws. |
| ComponentEmit.EmitAddFoo | packages/runtime-core/src/componentEmit.ts:3-8 | Emitting `"add-foo"` calls the `onAddFoo` prop with the arguments. |
| EarlyReactivity.AddToFacts | src/reactivity/effect.ts:23-35 | After `add`, the Set exists and holds the value. The other Sets are unchanged, and no Set disappears. |
| EarlyReactivity.TrackE | src/reactivity/effect.ts:18-36 | `track` adds `activeEffect`, even `undefined`, to the Set and creates the map and Set. Nothing else changes. |
| EarlyReactivity.WriteReady | src/reactivity/baseHandlers.ts:21 | `Reflect.set` on a plain object keeps every proxy and effect read valid. |
| EarlyReactivity.GetE | src/reactivity/baseHandlers.ts:7-16 | A read changes only `targetMap`: it adds to Sets and never removes. |
| EarlyReactivity.RunReads | src/reactivity/effect.ts:11 | The reads of a function change only `targetMap`. |
| EarlyReactivity.RunE | src/reactivity/effect.ts:8-12 | `run` sets `activeEffect` to the effect, never resets it, and records exactly one run. |
| EarlyReactivity.NotifyE | src/reactivity/effect.ts:42-44 | The loop changes neither objects nor effects. |
| EarlyReactivity.TriggerE | src/reactivity/effect.ts:38-45 | `trigger` changes neither objects nor effects. |
| EarlyReactivity.SetE | src/reactivity/baseHandlers.ts:19-25 | A write changes no proxy and turns no object into a proxy. |
| EarlyReactivity.EffectE | src/reactivity/effect.ts:48-52 | `effect(fn)` adds one effect, runs it once and leaves it active. |
| EarlyReactivity.NotifyRunsAll | src/reactivity/effect.ts:42-44 | Without `undefined` members, every member runs once in insertion order and the trigger returns. |
| EarlyReactivity.NotifyStopsAtUndefined | src/reactivity/effect.ts:42-44 | The members before the first `undefined` run, then the trigger throws. |
| EarlyReactivity.OutsideReadSubscribesLast | src/reactivity/effect.ts:10 | A read outside any effect subscribes the effect that ran last. |
| EarlyReactivity.ReadonlyReadUntracked | src/reactivity/baseHandlers.ts:9-14 | A readonly read returns the field and changes nothing. |
| EarlyReactivity.WriteReruns | src/reactivity/effect.ts:38-45 | A write after a tracked read sets the field and re-runs every subscriber. |
| EarlyReactivity.UntrackedWriteThrows | src/reactivity/effect.ts:40-41 | A write with no `track` of the key before it throws, after the field is written. |
| EarlyReactivity.TwoEffects | src/reactivity/effect.ts:17-52 | Two effects over the same field, then a read and a write: both effects re-run, in order. |
| EarlyReactivity.WriteRerunsBoth | src/reactivity/effect.ts:38-45 | The write re-runs both subscribers: runs `[0, 1, 0, 1]`. |
| EarlyReactivity.FirstEffect | src/reactivity/effect.ts:48-52 | The first effect runs once and is the Set's only member. |
| EarlyReactivity.SecondEffectThenRead | src/reactivity/effect.ts:10 | An effect with no reads runs. A read afterwards subscribes it, so the Set becomes `[0, 1]`. |
| EarlyReactivity.EarlyRuntime.constructor | src/reactivity/effect.ts:17 | An empty `targetMap`, with no objects and no effects. |
| EarlyReactivity.EarlyRuntime.NewProxy | src/reactivity/reactive.ts:4-12 | `new Proxy`: a non-object throws; otherwise it appends one new proxy. |
| EarlyReactivity.EarlyRuntime.Reactive | src/reactivity/reactive.ts:4-6 | A mutable proxy, or TypeError. |
| EarlyReactivity.EarlyRuntime.Readonly | src/reactivity/reactive.ts:11-12 | A readonly proxy, or TypeError. |
| EarlyReactivity.EarlyRuntime.Track | src/reactivity/effect.ts:18-36 | In place, `track` equals `TrackE`. |
| EarlyReactivity.EarlyRuntime.Get | src/reactivity/baseHandlers.ts:7-16 | In place, `get` equals `GetE`. |
| EarlyReactivity.EarlyRuntime.Run | src/reactivity/effect.ts:8-12 | In place, `run` equals `RunE`. |
| EarlyReactivity.EarlyRuntime.Trigger | src/reactivity/effect.ts:38-45 | In place, `trigger` equals `TriggerE`, including whether it throws. |
| EarlyReactivity.EarlyRuntime.Set | src/reactivity/baseHandlers.ts:19-25 | In place, `set` equals `SetE`. |
| EarlyReactivity.EarlyRuntime.Effect | src/reactivity/effect.ts:48-52 | In place, `effect` equals `EffectE`. |
| Renderer.FlagKinds | lib/x-mini-vue.cjs.js:7-37 | The renderer's tests of each flag bit mean what the vnode is: element, component, text, array or slot children. |
| Renderer.PatchPropsS | lib/x-mini-vue.cjs.js:605-624 | `patchProps` only appends calls and creates no node. |
| Renderer.ProcessTextS | lib/x-mini-vue.cjs.js:472-476 | Text nodes only extend the trace. |
| Renderer.PatchS | lib/x-mini-vue.cjs.js:453-471 | `patch` only extends the trace and adds instances. |
| Renderer.MountChildrenS | lib/x-mini-vue.cjs.js:643-647 | `mountChildren` only extends the trace and adds instances. |
| Renderer.ProcessElementS | lib/x-mini-vue.cjs.js:480-488 | `processElement` only extends the trace. |
| Renderer.MountElementS | lib/x-mini-vue.cjs.js:625-642 | `mountElement` only extends the trace. |
| Renderer.ElementContentS | lib/x-mini-vue.cjs.js:629-634 | The children step of `mountElement` only extends the trace: text children set the text, and array children are mounted into the new element. |
| Renderer.PatchElementS | lib/x-mini-vue.cjs.js:489-501 | `patchElement` only extends the trace. |
| Renderer.PatchChildrenS | lib/x-mini-vue.cjs.js:504-534 | `patchChildren` only extends the trace. |
| Renderer.PrefixS | lib/x-mini-vue.cjs.js:545-556 | The prefix scan ends with `i` between its start and both lengths, with the ends untouched. |
| Renderer.SuffixS | lib/x-mini-vue.cjs.js:558-569 | The suffix scan moves both ends down by the same amount and never below `i - 1`. |
| Renderer.PrefixMatches | lib/x-mini-vue.cjs.js:545-556 | Every pair before the new `i` has the same type and key. The scan stops at the first pair that differs, while both lists have one. |
| Renderer.SuffixMatches | lib/x-mini-vue.cjs.js:558-569 | Every pair after the new ends matches. The scan stops at the first differing tail pair, while both ranges are non-empty. |
| Renderer.SuffixStep | lib/x-mini-vue.cjs.js:561-568 | One matching step patches the two tails, then continues with both ends decremented. |
| Renderer.SuffixStop | lib/x-mini-vue.cjs.js:558-566 | The scan stops where a range is empty or the tails differ. |
| Renderer.MountRangeS | lib/x-mini-vue.cjs.js:585-588 | The insertion loop only extends the trace. |
| Renderer.RemoveRangeS | lib/x-mini-vue.cjs.js:592-595 | The removal loop only appends calls: no node, `el` or instance changes. |
| Renderer.ScansS | lib/x-mini-vue.cjs.js:538-569 | After both scans, `i <= e1 + 1` and `i <= e2 + 1`, and both ends moved by the same amount. |
| Renderer.KeyedScans | lib/x-mini-vue.cjs.js:538-569 | The common prefix and common suffix are exactly the same-type pairs. When both middles are non-empty, their first pairs differ and their last pairs differ. |
| Renderer.PatchKeyedS | lib/x-mini-vue.cjs.js:535-598 | The keyed diff only extends the trace. |
| Renderer.SetupOk | lib/x-mini-vue.cjs.js:653 | Setup of a mountable component vnode does not throw. |
| Renderer.MountComponentS | lib/x-mini-vue.cjs.js:651-655 | `mountComponent` only extends the trace and the instances. |
| Renderer.RenderEffectS | lib/x-mini-vue.cjs.js:656-679 | The render effect only extends the trace and changes no instance but its own. |
| Renderer.RenderS | lib/x-mini-vue.cjs.js:448-450 | `render` only extends the trace. |
| Renderer.MountAppS | lib/x-mini-vue.cjs.js:435-442 | `createApp(...).mount` only extends the trace. |
| Renderer.PatchIgnoresOld | lib/x-mini-vue.cjs.js:472-479 | Fragment, Text and component vnodes are processed as if there were no old vnode. |
| Renderer.MountPropOpsAll | lib/x-mini-vue.cjs.js:637-640 | Mounting issues one `patchProp(el, key, null, value)` per prop, in order. |
| Renderer.RemoveOpsAll | lib/x-mini-vue.cjs.js:599-604 | `unmountChildren` removes each child's node, in order. |
| Renderer.RemoveRangeOps | lib/x-mini-vue.cjs.js:591-596 | The removal loop removes the nodes of `c1[i..e1]`, in order, and changes nothing else. |
| Renderer.MountRangeFrom | lib/x-mini-vue.cjs.js:585-588 | The insertion loop continued from `i` equals mounting the whole range as children. |
| Renderer.KeyedInsert | lib/x-mini-vue.cjs.js:573-590 | Pure insertion mounts exactly `c2[i..e2]`, in order, before the anchor `c2[e2+1].el` (or none at the end). |
| Renderer.MountRangeIsChildren | lib/x-mini-vue.cjs.js:585-588 | The insertion loop equals `mountChildren` of the range. |
| Renderer.KeyedRemove | lib/x-mini-vue.cjs.js:591-596 | Pure removal removes exactly the nodes of `c1[i..e1]`, in order, and nothing else. |
| Renderer.KeyedBothRemain | lib/x-mini-vue.cjs.js:573-597 | When both middles are non-empty, nothing happens after the scans. |
| Renderer.PatchChildrenTextOverArray | lib/x-mini-vue.cjs.js:510-521 | Text over an array removes every old child's node in order, then sets the text. |
| Renderer.PatchChildrenTextOverText | lib/x-mini-vue.cjs.js:510-521 | Text over text sets the text only when it changed. |
| Renderer.PatchChildrenArrayOverText | lib/x-mini-vue.cjs.js:522-529 | An array over text clears the text, then mounts the new children. |
| Renderer.PatchChildrenArrayOverArray | lib/x-mini-vue.cjs.js:530-532 | An array over an array runs the keyed diff. |
| Renderer.ChangedOpsAre | lib/x-mini-vue.cjs.js:608-614 | The first `patchProps` loop issues a call iff it is `(key, old, new)` for a new key whose value changed. |
| Renderer.RemovedOpsAre | lib/x-mini-vue.cjs.js:615-622 | The second loop issues a call iff it is `(key, old, null)` for an old key missing from the new props. |
| Renderer.PatchPropsPolicy | lib/x-mini-vue.cjs.js:605-624 | The same props object issues nothing. Otherwise a call is issued iff it is a changed new key, or a dropped old key when the old props were not `EMPTY_OBJ`. |
| Renderer.PatchMountsBefore | lib/x-mini-vue.cjs.js:453-471 | Mounting removes nothing and inserts every element before the anchor it was given, nested elements included. |
| Renderer.ChildrenMountsBefore | lib/x-mini-vue.cjs.js:643-647 | The same for `mountChildren`. |
| Renderer.ElementMountsBefore | lib/x-mini-vue.cjs.js:625-642 | The same for `mountElement`, which passes its anchor on to its children. |
| Renderer.ComponentMountsBefore | lib/x-mini-vue.cjs.js:651-679 | The same for `mountComponent`. |
| Renderer.MountElementOps | lib/x-mini-vue.cjs.js:625-642 | `mountElement` creates a new node, issues the text or the children's calls, then one `patchProp` per prop, and inserts the node last. |
| Renderer.FirstRun | lib/x-mini-vue.cjs.js:658-667 | The first run mounts the tree into the instance's container before its anchor, stores `subTree` and sets `isMounted`. The component's vnode gets the tree's `el`, and other instances are untouched. |
| Renderer.LaterRun | lib/x-mini-vue.cjs.js:668-677 | A later run replaces `subTree` and patches the previous tree against the new one. A non-element tree is mounted afresh. |
| Renderer.MountComponentInstance | lib/x-mini-vue.cjs.js:651-655 | Mounting adds one instance with its vnode, parent, provides object, container and anchor, then mounts it with its tree. |
| Renderer.RerenderText | lib/x-mini-vue.cjs.js:668-677 | Re-rendering an element whose text alone changed issues exactly one text call, on the old node, which the new tree takes over. |
| Renderer.Renderer.constructor | lib/x-mini-vue.cjs.js:445-446 | An empty trace, with no nodes and no instances. |
| Renderer.Renderer.Patch | lib/x-mini-vue.cjs.js:453-471 | In place, `patch` equals `PatchS`. |
| Renderer.Renderer.ProcessText | lib/x-mini-vue.cjs.js:472-476 | Equals `ProcessTextS`. |
| Renderer.Renderer.MountChildren | lib/x-mini-vue.cjs.js:643-647 | The `forEach` equals `MountChildrenS`. |
| Renderer.Renderer.ProcessElement | lib/x-mini-vue.cjs.js:480-488 | Equals `ProcessElementS`. |
| Renderer.Renderer.MountElement | lib/x-mini-vue.cjs.js:625-642 | The prop loop and the insert equal `MountElementS`. |
| Renderer.Renderer.MountContent | lib/x-mini-vue.cjs.js:629-634 | The children step of `mountElement` equals `ElementContentS`: text children set the new element's text, array children are mounted into it, and other children change nothing. |
| Renderer.Renderer.MountProps | lib/x-mini-vue.cjs.js:636-640 | The `for...in` loop issues one `patchProp(el, key, null, value)` per own prop, in order, and changes nothing else. |
| Renderer.Renderer.PatchElement | lib/x-mini-vue.cjs.js:489-501 | Equals `PatchElementS`. |
| Renderer.Renderer.PatchChildren | lib/x-mini-vue.cjs.js:504-534 | Equals `PatchChildrenS`. |
| Renderer.Renderer.UnmountChildren | lib/x-mini-vue.cjs.js:599-604 | The loop appends the removal of each child's node. |
| Renderer.Renderer.PatchProps | lib/x-mini-vue.cjs.js:605-624 | Equals `PatchPropsS`. |
| Renderer.Renderer.PatchChangedProps | lib/x-mini-vue.cjs.js:608-614 | The first loop appends exactly `ChangedOps`. |
| Renderer.Renderer.RemoveOldProps | lib/x-mini-vue.cjs.js:617-621 | The second loop appends exactly `RemovedOps`. |
| Renderer.Renderer.PatchKeyedChildren | lib/x-mini-vue.cjs.js:535-598 | Equals `PatchKeyedS`. |
| Renderer.Renderer.Scans | lib/x-mini-vue.cjs.js:538-569 | Equals `ScansS`. |
| Renderer.Renderer.ScanPrefix | lib/x-mini-vue.cjs.js:545-556 | The first `while` loop equals `PrefixS`. |
| Renderer.Renderer.ScanSuffix | lib/x-mini-vue.cjs.js:558-569 | The second `while` loop equals `SuffixS`. |
| Renderer.Renderer.PatchHeads | lib/x-mini-vue.cjs.js:546-550 | One pass of the first loop: after patching the matching heads at `i`, the rest of the prefix scan from `i + 1` ends where the scan from `i` would have. |
| Renderer.Renderer.PatchTails | lib/x-mini-vue.cjs.js:559-563 | One pass of the second loop: after patching the matching tails, the rest of the suffix scan from `e1 - 1`, `e2 - 1` ends where the scan from `e1`, `e2` would have. |
| Renderer.Renderer.MountRange | lib/x-mini-vue.cjs.js:585-588 | The insertion loop equals `MountRangeS`. |
| Renderer.Renderer.RemoveRange | lib/x-mini-vue.cjs.js:592-595 | The removal loop equals `RemoveRangeS`. |
| Renderer.Renderer.MountComponent | lib/x-mini-vue.cjs.js:651-655 | Equals `MountComponentS`. |
| Renderer.Renderer.RunEffect | lib/x-mini-vue.cjs.js:657-678 | One run of the render effect equals `RenderEffectS`. |
| Renderer.Renderer.Render | lib/x-mini-vue.cjs.js:448-450 | Equals `RenderS`. |
| Renderer.Renderer.MountApp | lib/x-mini-vue.cjs.js:435-442 | Equals `MountAppS`. |
| EarlyRenderer.PatchE | src/runtime-core/renderer.ts:8-16 | `patch` only extends the trace, uses fresh nodes and adds or completes instances. |
| EarlyRenderer.PatchChildE | src/runtime-core/renderer.ts:46-48 | One child of `mountChildren` grows the state in the same way. |
| EarlyRenderer.MountChildrenE | src/runtime-core/renderer.ts:45-49 | `mountChildren` grows the state in the same way. |
| EarlyRenderer.MountElementE | src/runtime-core/renderer.ts:22-43 | `mountElement` grows the state in the same way. |
| EarlyRenderer.ElementContentE | src/runtime-core/renderer.ts:28-33 | The children step of `mountElement` only extends the trace. |
| EarlyRenderer.MountComponentE | src/runtime-core/renderer.ts:55-60 | `mountComponent` grows the state in the same way. |
| EarlyRenderer.SetupRenderEffectE | src/runtime-core/renderer.ts:62-69 | The render effect extends the trace. Instances before its own are untouched. |
| EarlyRenderer.RenderE | src/runtime-core/renderer.ts:4-6 | `render` grows the state. |
| EarlyRenderer.PatchFrame | src/runtime-core/renderer.ts:22-24 | A mount writes `el` only for the vnodes it mounts as elements. |
| EarlyRenderer.ChildrenFrame | src/runtime-core/renderer.ts:45-49 | The same for `mountChildren`. |
| EarlyRenderer.ElementFrame | src/runtime-core/renderer.ts:22-43 | The same for `mountElement`. |
| EarlyRenderer.NeitherFlagIsNoop | src/runtime-core/renderer.ts:8-16 | A vnode with neither the element nor the component bit does nothing. |
| EarlyRenderer.PatchDispatch | src/runtime-core/renderer.ts:8-16 | The element bit wins, even with the component bit: the first call creates an element of the vnode's tag. With only the component bit, a new instance for the vnode is created. |
| EarlyRenderer.AttrOpsAll | src/runtime-core/renderer.ts:36-40 | One `setAttribute` per prop, in order, with the prop's value. |
| EarlyRenderer.ElementShape | src/runtime-core/renderer.ts:22-43 | An element is created first with the vnode's tag and appended to the container last. One attribute per prop is set just before the append. |
| EarlyRenderer.TextChildren | src/runtime-core/renderer.ts:29-30 | Text children set `textContent` right after creation. No other node and no instance is created. |
| EarlyRenderer.ChildMountedInto | src/runtime-core/renderer.ts:45-49 | Child `k` is mounted after children `0..k-1` and appended to the container the children go into. |
| EarlyRenderer.MountChildrenSplit | src/runtime-core/renderer.ts:46-48 | Mounting `a + b` is mounting `a` then `b`. |
| EarlyRenderer.ElementRecordsEl | src/runtime-core/renderer.ts:23-24 | `mountElement` records the created node as the vnode's `el`. |
| EarlyRenderer.ComponentEl | src/runtime-core/renderer.ts:62-69 | The new instance gets the `el` of its tree: the tree's node when the tree is an element. The component vnode's own `el` is never written. |
| EarlyRenderer.Renderer.constructor | src/runtime-core/renderer.ts:4 | No calls, nodes or instances yet. |
| EarlyRenderer.Renderer.Render | src/runtime-core/renderer.ts:4-6 | Equals `RenderE`. |
| EarlyRenderer.Renderer.Patch | src/runtime-core/renderer.ts:8-16 | Equals `PatchE`. |
| EarlyRenderer.Renderer.MountElement | src/runtime-core/renderer.ts:22-43 | The prop loop and append equal `MountElementE`. |
| EarlyRenderer.Renderer.MountContent | src/runtime-core/renderer.ts:28-33 | The children step equals `ElementContentE`: text children set `textContent`, array children are mounted into the new element, and other children change nothing. |
| EarlyRenderer.Renderer.SetAttributes | src/runtime-core/renderer.ts:35-40 | The `for...in` loop issues one `setAttribute(key, value)` per own prop, in order, and changes nothing else. |
| EarlyRenderer.Renderer.MountChildren | src/runtime-core/renderer.ts:45-49 | The `forEach` equals `MountChildrenE`. |
| EarlyRenderer.Renderer.MountComponent | src/runtime-core/renderer.ts:55-60 | Equals `MountComponentE`. |
| EarlyRenderer.Renderer.SetupRenderEffect | src/runtime-core/renderer.ts:62-69 | Equals `SetupRenderEffectE`. |
| Compiler.TypeOf | lib/compiler.cjs.js:31 | Each node kind has its own `NodeTypes` constant, and none is `SIMPLE_EXPRESSION`. |
| Compiler.IndexOfClose | lib/compiler.cjs.js:63 | `indexOf("}}", from)` is -1 or a position at or after `from` holding `"}}"`. |
| Compiler.IndexOfCloseFirst | lib/compiler.cjs.js:63 | It is the first such position, and -1 only when there is none. |
| Compiler.LetterRun | lib/compiler.cjs.js:48 | The group `([a-z]*)` is no longer than the input. |
| Compiler.LetterRunMaximal | lib/compiler.cjs.js:48 | The group is the longest prefix of ASCII letters. |
| Compiler.TrimStartCut | lib/compiler.cjs.js:67 | `trim`'s front cut drops only white space and stops at non-space. |
| Compiler.TrimEndCut | lib/compiler.cjs.js:67 | The back cut drops only white space and stops at non-space. |
| Compiler.TrimMiddle | lib/compiler.cjs.js:67 | `trim` keeps a contiguous middle, surrounded only by white space, that starts and ends with non-space. |
| Compiler.AdvanceByDrops | lib/compiler.cjs.js:77-79 | `advanceBy` drops exactly `length` leading characters, or all of them when there are fewer. A negative length keeps that many trailing characters. |
| Compiler.ParseTagS | lib/compiler.cjs.js:46-58 | Throws iff the source does not start with `<`. Otherwise the start mode returns an element and the end mode nothing. |
| Compiler.BaseParseOneChild | lib/compiler.cjs.js:5-8 | With the corrected element test of `parseChildren` (see Findings), a successful parse has exactly one child. It fails exactly when the element branch is taken and its tags throw. |
| Compiler.InterpolationContent | lib/compiler.cjs.js:59-76 | `{{ x }}` gives the trimmed text before the first `}}` from index 2. The source after that `}}` is left. |
| Compiler.InterpolationUnclosed | lib/compiler.cjs.js:63-68 | Without `}}` the length is -3. The content is all but the last three characters after `{{`, trimmed, and at most one character is left. |
| Compiler.ElementTag | lib/compiler.cjs.js:41-58 | `<` and a letter give an element whose tag is the longest letter run. It succeeds iff an end tag follows the start tag and one more character. |
| Compiler.EndTagConsumed | lib/compiler.cjs.js:46-53 | The end tag consumes `<`, an optional `/`, the letters and one more character, and returns nothing. |
| Compiler.OtherIsText | lib/compiler.cjs.js:21-23 | Any other source, `<` without a following letter included, is one text node of the whole source, with nothing left. |
| Compiler.LoneAngleThrows | lib/compiler.cjs.js:16-19 | As written, `"<"` throws; with the intended test it is the text `"<"`. |
| Compiler.AsWrittenAgreesElsewhere | lib/compiler.cjs.js:16-19 | The written and the intended element tests differ only on `"<"`. |
| Compiler.ParserContext.constructor | lib/compiler.cjs.js:85-89 | The context holds the content. |
| Compiler.ParserContext.AdvanceBy | lib/compiler.cjs.js:77-79 | In place, equals `AdvanceByS`. |
| Compiler.ParserContext.ParseTextData | lib/compiler.cjs.js:35-40 | Equals `ParseTextDataS`. |
| Compiler.ParserContext.ParseText | lib/compiler.cjs.js:27-34 | Equals `ParseTextS`. |
| Compiler.ParserContext.ParseTag | lib/compiler.cjs.js:46-58 | Equals `ParseTagS`, including the throw. |
| Compiler.ParserContext.ParseElement | lib/compiler.cjs.js:41-45 | Equals `ParseElementS`. |
| Compiler.ParserContext.ParseInterpolation | lib/compiler.cjs.js:59-76 | Equals `ParseInterpolationS`. |
| Compiler.ParserContext.ParseChildren | lib/compiler.cjs.js:9-26 | Equals `ParseChildrenS`, with the corrected element test. |
| Compiler.BaseParse | lib/compiler.cjs.js:5-8 | Equals `BaseParseS`, which uses the corrected element test of `parseChildren` (see Findings): `"<"` alone parses to a text node, where the source throws. |

## Left out

- User code is abstracted, not executed:
  - an effect's function is the Sets it reads, plus its result;
  - `render` is the tree it returns;
  - slot functions and `inject` defaults are function parameters;
  - a `setup` result is not modelled, so `setupState` is a parameter of
    the instance proxy's lookup;
  - event handlers are only named by the `Call` they receive.
- The scheduler queue is left out: a scheduler is only recorded as called.
- The DOM is a trace of host calls. Nodes are numbers. Each vnode has an id,
  and its `el` is a map entry keyed by that id. The host functions at
  `lib/x-mini-vue.cjs.js:685-718` are not modelled beyond the call they
  receive.
- `console.log` and `console.warn` are not modelled. The readonly setter's
  warning is recorded as a `Warning`.
- Floating point, NaN and `-0` are not modelled. `Object.is` and
  `hasChanged` are equality on integers.
- `Object.prototype` keys are not modelled in `in` tests. The `for...in`
  order is insertion order, and integer-like keys are not moved first.
- `camelize` and `capitalize` map only ASCII letters. Unicode case mapping
  is not modelled.
- Effect.Tracker.Stop: requires that the effect is not the one currently
  collecting. `stop()` from inside its own run is not modelled, because a
  later read would subscribe a stopped effect and break the invariant.
- Effect.Tracker.Trigger: requires the target's map and the key's Set to
  exist. Without them `trigger` dereferences `undefined` and throws.
- Handlers.Store.Set: requires, through `TriggerReady`, that the written
  key of the base object was tracked before. A write to a key that was
  never read inside an effect throws in `trigger`, and that throw is not
  modelled.
- Handlers.Store.CreateReactiveObject, Handlers.Store.Reactive,
  Handlers.Store.Readonly, Handlers.Store.ShallowReadonly,
  EarlyReactivity.EarlyRuntime.NewProxy, EarlyReactivity.EarlyRuntime.Reactive
  and EarlyReactivity.EarlyRuntime.Readonly: a function target, which
  `new Proxy` accepts, is not a heap entity here and gives `TypeError`.
  Proxies over functions are not modelled.
- Refs.ProxyRefs.Get and Refs.ProxyRefs.Set: `isRef` reads `__v_isRef` of
  the field, and in `set` of the new value too. When that value is a deep
  mutable reactive proxy, the read goes through its get trap and tracks
  `(raw, "__v_isRef")`. That read and its track are not modelled: for a
  non-ref value the ensures say the tracker is unchanged.
- Slots.InitSlotsS: an opaque object as slot children (`Prim(Obj(_))`)
  leaves the slots unchanged. The source reads its `shapeFlag` and
  enumerates its own keys into slots, but the model does not see the
  properties of an opaque object. The rows `Slots.InitSlotsForms` and
  `Slots.SlotsObject.InitSlots` carry the same gap.
- Renderer: vnode trees whose mount or patch would throw are excluded by
  the `Mountable`, `Patchable` and `PatchPair` preconditions. Examples are
  a missing `render`, or children that are not vnodes.
- Renderer: a missing `el` is not excluded. A host call on a vnode
  without `el` is recorded with `None` (`Remove(None)`,
  `PatchProp(None, ...)`, `SetElementText(None, ...)`). The host's throw
  on `undefined` is not modelled. One such input is an old Fragment child,
  whose `el` is never set, removed by the keyed diff or by
  `unmountChildren`.
- Renderer: these excluded inputs do not throw in the source and are not
  modelled either:
  - a `Text` vnode whose children are not a string, which
    `document.createTextNode` converts to a string;
  - an element whose old children are an array and whose new children are a
    number or a single vnode object. `patchKeyedChildren` then sees an
    undefined length, every comparison is false, and nothing happens;
  - an element whose children are neither a string nor an array, such as
    `h("div")`, on either side of a patch. `Patchable` asks for string or
    array children, while the source handles the others (patching
    `h("div")` with string children only sets the text);
  - an element patched over an old vnode that is not an element, such as a
    component whose previous tree was a `Text` vnode and whose new tree is
    an element. `PatchPair` requires both to be elements, while the source
    runs `patchElement` on the old text node.
- Renderer.SameType: compares component objects by value, while
  `isSomeVNodeType` compares them by identity. Two distinct component
  objects with the same name and render tree count as the same type here.
- Renderer.MountElementOps: does not claim the final `el` entry of the
  vnode, because a nested child with the same id could overwrite it.
- Renderer: when both middles of the keyed diff are non-empty, the source
  does nothing more, and that is what is modelled.
- Renderer: `mountElement` passes its own anchor to the children of the new
  element. This quirk is kept as written.
- EarlyRenderer: `Slots` children and opaque objects as children are
  excluded by `ChildOk`, since they may carry a `shapeFlag` of their own.
  Null or undefined children, which throw on destructuring, are excluded
  too.
- EarlyRenderer: `src/runtime-core/component.ts` is not part of this model.
  An early instance is its vnode and its `el`, and `setupComponent` has no
  effect on it.
- Compiler.BaseParse, Compiler.BaseParseS and
  Compiler.ParserContext.ParseChildren: parse with the corrected
  element test of `parseChildren` (see Findings), so `baseParse("<")` yields
  the text node `"<"` where the source throws. The as-written test is
  `ParseChildrenAsWritten`.
- Compiler: strings are sequences of whole Unicode characters, not UTF-16
  code units. Positions of `slice`, `indexOf` and `advanceBy` differ from
  JavaScript on characters outside the Basic Multilingual Plane: for
  `baseParse("{{ab😀")` the source takes the content `"a"` and leaves a lone
  low surrogate, while the model takes `""` and leaves `"😀"`.
- Compiler: an element's content is not parsed. Anything other than an end
  tag right after the start tag throws, as written.

## Findings

| source | as written | input that shows it | evidently intended | confidence | as-written member | corrected member |
|---|---|---|---|---|---|---|
| lib/compiler.cjs.js:16-19 | `/[a-z]/i.test(s[1])` when `s` is one character tests `undefined`, which converts to the string "undefined" and matches. The element branch is taken, the start tag consumes `<`, and the end tag's regular expression does not match the empty rest, so `match[1]` throws. | `baseParse("<")` | A `<` not followed by a letter is text: `"<"` parses to one text node `"<"` | not executed | Compiler.LoneAngleThrows | Compiler.OtherIsText |
