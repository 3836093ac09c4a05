# react-istate, modelled in Dafny

This project models the decision logic of react-istate's `src/index.js`. React, timers and promise callbacks are replaced by explicit objects and events. The model covers five parts:

- **Freeze scopes** (`freeze.dfy`, module `FreezeScopes`). The object `createFreeze` builds is the class `FreezeScope`:
  - a parent link;
  - the `enabled` setting (`Unset`, the truthy `{}` sentinel, or a boolean);
  - the subscriber set and the queued re-render set;
  - a `flushPending` flag that stands for the zero-delay timer, with `Flush()` as the timer firing.

  Subscriber callbacks and re-render functions are ids. `Rerender(consumer, render)` identifies the `rerender` closure a consumer's render installs; each render installs a fresh one.
- **Loadable records** (`loadable.dfy`, module `Loadables`). A promise is an id. The class `PromiseTable` is a side table keyed by that id. It holds:
  - the `__loadable` record;
  - the listener set behind `__onDone`;
  - the `sameThread` flag;
  - whether the settlement handlers are still to run.

  `enableLoadableLogic` is `EnableLoadable`, and a promise settling is the event `Settle`.
- **Input classification and shaping** (`states.dfy`, module `StateInputs`). The input to `useValue`/`useLoadable` is a tagged datatype: a state function, a `[value, api]` tuple, an array, or anything else. This part covers `Normalize`, `ApiOf` and `Shape`.
- **The readers** (`readers.dfy`, module `Readers`):
  - the per-value transforms of `useValue` and `useLoadable` (`Transform`);
  - `states.map(...)` as a specification (`MapStates`, `StatesSpec`, `ReadSpec`), and as the loop `MapInto` that fills the consumer's context;
  - the class `Context` for `contextRef.current`;
  - `UseStates`, `UseValue` and `UseLoadable`, each proved against the specification functions.

  The state library's `api.get()` is a function parameter `get`.
- **The mount effect** (`effect.dfy`, module `Effects`). The class `Effect` holds the closure state of the `useEffect` callback: `isFrozen`, `shouldRerender` and the captured `unsubscribes` array. Its operations are:
  - the constructor `Mount`, the effect body;
  - `HandleChange` and `HandleFreezeChange`;
  - `Cleanup`, the function the effect returns.

Callbacks are not run inside the model. `SetFrozen`, `Flush` and `Settle` return the subscribers, re-render functions and listeners they would call, each exactly once. `Cleanup` returns the apis whose `subscribe` results it calls.

`scenarios.dfy` (module `Scenarios`) drives fresh objects through whole stories, in the style of the repository's tests:
- several `rerenderChild` calls coalescing into one flush;
- a disposed scope;
- nested scopes;
- `useValue` suspending and retrying;
- `useLoadable` re-rendering on settlement;
- a frozen consumer holding back a change until its scope unfreezes;
- unmounting dropping a listener.

Some behaviours of the code are easy to misread; the model follows the code:
- **Nested scopes.** `isFrozen` is the conjunction of a scope's setting and its parent's `isFrozen` (src/index.js:35). A scope set to unfrozen under a frozen parent is therefore not frozen (`UnfrozenAncestorUnfreezes`, `Scenarios.NestedScopes`).
- **Rejections.** A rejected promise's record is stored in the state `'error'` (src/index.js:118-121). The `Loadable` type declares `'hasError'` instead (src/index.d.ts:15), and `useValue` tests only for `'hasError'` (src/index.js:81). So after a rejection `useValue` returns the promise object itself rather than throwing (`RejectedPromiseIsReturned`). `'hasError'` is kept as a record state (`HasError`) because `useValue` tests for it (`useLoadable` tests only for `'loading'`, src/index.js:141), but no code path produces it (`ValueReadNeverThrowsWithoutHasError`).
- **Dispose.** `dispose` empties both sets but does not cancel the timer (src/index.js:60-63). A flush that fires afterwards finds nothing to call.
- **Change handling.** `handleChange` re-renders, or defers while frozen, on every notification. There is no comparison of old and new values (src/index.js:213-219).
- **First-render listeners.** On the first render `prevValues` is the very array being filled (src/index.js:188-198). A listener registered then always finds its own value at its index and re-renders on settlement (`ListenerFiresWhenUnchanged`).
- **Captured list.** The effect runs once and captures the first render's `unsubscribes` array (src/index.js:210). Later renders start a fresh array, so the listeners they register are never removed by the cleanup. The model keeps the captured list in `Effect.unsubscribes`.
- **No parent subscription.** A child scope reads its parent's `isFrozen` on demand but never subscribes to it (src/index.js:26-36). Flipping a parent notifies only the parent's own subscribers.

## Model

| member | source | states |
|---|---|---|
| FreezeScopes.FreezeScope.constructor | src/index.js:26-33 | A new scope has the `unset` setting, no subscribers, no queued re-renders and no pending flush; its ancestors are the parent's chain plus the parent |
| FreezeScopes.FreezeScope.IsFrozen | src/index.js:34-36 | Frozen exactly when the scope's own setting is truthy and so is the setting of every scope above it |
| FreezeScopes.UnsetRootIsFrozen | src/index.js:31-35 | A root scope that was never set reports itself frozen, because the `unset` sentinel is truthy |
| FreezeScopes.UnfrozenAncestorUnfreezes | src/index.js:34-36 | One ancestor set to `false` makes every scope below it unfrozen, whatever their own settings |
| FreezeScopes.FreezeScope.Subscribe | src/index.js:37-38 | The subscriber set gains exactly that callback; the scope stays valid |
| FreezeScopes.FreezeScope.Unsubscribe | src/index.js:39 | The subscriber set loses exactly that callback and no other |
| FreezeScopes.FreezeScope.SetFrozen | src/index.js:41-50 | The setting becomes the value. The first call (from `unset`) notifies nobody; a call with the current value notifies nobody; a call that flips the value notifies every subscriber exactly once |
| FreezeScopes.FreezeScope.RerenderChild | src/index.js:51-54 | The function joins the queue as a set member, so duplicates collapse; a flush is pending afterwards, and queued functions always have a pending flush |
| FreezeScopes.FreezeScope.Flush | src/index.js:54-58 | Every function queued before the flush is called exactly once; afterwards the queue is empty and no flush is pending |
| FreezeScopes.FreezeScope.Dispose | src/index.js:60-63 | Both sets become empty; a scheduled flush stays scheduled |
| Scenarios.CoalescedFlush | src/index.js:51-58 | Three `rerenderChild` calls with two distinct functions lead to one flush calling each function once; a second flush calls nothing |
| Scenarios.DisposedScope | src/index.js:41-63 | After `dispose`, the pending flush calls nothing and flipping the setting notifies nobody |
| Scenarios.NestedScopes | src/index.js:34-36 | Under a frozen scope, an unfrozen child is not frozen and a frozen child is. Unfreezing the parent unfreezes the child, and an unset child follows its parent |
| Loadables.Settled | src/index.js:109-123 | A fulfilment gives a `hasValue` record carrying the payload; a rejection gives an `'error'` record carrying the reason; neither is `loading` or `'hasError'` |
| Loadables.ObserveCases | src/index.js:95-104 | The record a read sees after `enableLoadableLogic`: a promise seen for the first time is `loading`, and any settled record is the one the table already held |
| Loadables.PromiseTable.EnableLoadable | src/index.js:95-132 | An already wrapped promise is left exactly as it was: same record, same listeners, no second pair of handlers. Otherwise it gets a `loading` record, an empty listener set and pending handlers, and its `sameThread` flag is clear on return |
| Loadables.PromiseTable.OnDone | src/index.js:105-106 | `__onDone` adds the listener to that promise's set and changes nothing else |
| Loadables.PromiseTable.OffDone | src/index.js:107 | The function `__onDone` returns removes that listener from that promise's set and changes nothing else |
| Loadables.PromiseTable.Settle | src/index.js:109-130 | A wrapped promise whose handlers are still to run gets the record `Settled(outcome)`, and every listener in its set is called exactly once. Any other promise changes nothing and notifies nobody |
| StateInputs.Normalize | src/index.js:168-181 | A tagged state or tuple becomes a one-element list read as a single value; an array is used as it is and read as a list; anything else, an untagged function included, fails with "Invalid state input" |
| StateInputs.ApiOf | src/index.js:201 | A tagged tuple yields its second item; any other element that can be called, tagged or not, is called and its result's second item is the api; an array or a value that cannot be called has none |
| StateInputs.Shape | src/index.js:241 | An array input gets the whole list back; a single input gets the only element |
| Readers.Transform | src/index.js:71-159 | Only `useValue` can throw, and only for a `'hasError'` record. A promise is collected exactly when its record is `loading`. `useLoadable` always yields a snapshot |
| Readers.ValueReaderRules | src/index.js:72-87 | `useValue` per value: a plain value is returned unchanged, `hasValue` yields the payload, `'hasError'` throws its error, `loading` returns the promise and collects it, `'error'` returns the promise itself |
| Readers.LoadableReaderRules | src/index.js:138-159 | `useLoadable` per value: a plain value becomes a `hasValue` snapshot of itself, and a promise yields its own record |
| Readers.ReadersAgree | src/index.js:75-80 | Both readers wait on the same promises, and a value `useLoadable` reports as `hasValue` is what `useValue` returns |
| Readers.RejectedPromiseIsReturned | src/index.js:117-122 | After a rejection, `useValue` returns the promise itself and `useLoadable` reports the `'error'` record |
| Readers.TransformAfterWrap | src/index.js:95-98 | Wrapping an already wrapped promise again does not change any read of it |
| Readers.ElementResultCases | src/index.js:200-205 | One element fails as "not a state" at its index exactly when it has no api. With an api, it fails only when `useValue` meets a `'hasError'` record, and it waits exactly when its value is a loading promise |
| Readers.MapStates | src/index.js:200-206 | A successful map has one output per state, and every collected promise comes from an index within the states |
| Readers.MapStatesOuts | src/index.js:200-206 | A successful map has one output per state, in order, each the transform of that state's current value |
| Readers.MapStatesPendingSound | src/index.js:76-78 | Every collected promise is the loading promise of some state, and they are collected in index order |
| Readers.MapStatesPendingComplete | src/index.js:76-78 | Every state whose value is a loading promise has its promise collected |
| Readers.MapStatesFailure | src/index.js:200-206 | A failed map failed at some state, after every earlier state was read successfully |
| Readers.MapStatesPrefixFailure | src/index.js:200-206 | Once a prefix of the states throws, the whole map throws the same failure |
| Readers.StatesSpecOfOne | src/index.js:169-178 | One state, given alone or as a one-element array, reads as its own transform: unwrapped or in a one-element list, with its promise collected if it is still loading |
| Readers.ReadShape | src/index.js:200-206 | An array input yields a list as long as the array, element by element; a single state yields its one output unwrapped |
| Readers.ValueReadSuspends | src/index.js:89-91 | `useValue` suspends exactly when every state could be read and at least one value is a loading promise |
| Readers.ValueReadSuspendsOn | src/index.js:89-90 | A suspension carries exactly the loading promises among the values |
| Readers.InvalidInputFails | src/index.js:168-181 | An input that is neither a state nor an array makes both readers fail with "Invalid state input" |
| Readers.LoadableReadNeverThrowsValues | src/index.js:134-162 | `useLoadable` never suspends; it fails only for an invalid input or an array element that is not a state, never with a value's error |
| Readers.ValueReadNeverThrowsWithoutHasError | src/index.js:81-82 | With no `'hasError'` records, which is every table the code builds, `useValue` never rethrows a promise's error |
| Readers.ListenerFiresWhenUnchanged | src/index.js:144-150 | A listener from the first render always re-renders on settlement. A later render's listener re-renders exactly when the previous render read that same promise at its index |
| Readers.RegisteredListeners | src/index.js:141-152 | After a `useLoadable` render, each promise's listener set is its previous set plus one listener per collected entry on that promise, and nothing else |
| Readers.OneReadFrames | src/index.js:95-106 | A render that reads one promise on an empty table and registers one listener leaves exactly that promise wrapped, `loading`, with exactly that listener |
| Readers.Context.BeginRender | src/index.js:185-198 | A new render resets the per-render lists and records the freeze scope. The previous render's values become `prevValues`; on the first render `prevValues` is the array being filled |
| Readers.Context.Track | src/index.js:203-204 | Reading a state appends its api and its value to the context |
| Readers.Context.Register | src/index.js:143-151 | The listener for the loading promise joins that promise's set, and its unsubscribe is appended to the render's list |
| Readers.Wrap | src/index.js:73-74 | `enableLoadableLogic` runs on every promise value. The table then wraps exactly the promises it wrapped before and the promises read so far, each with the record `Observe` gave before the render; the listener sets are unchanged |
| Readers.Visit | src/index.js:200-205 | Reading one state records its api and value, wraps its value, and yields exactly that element's result. The table gains no record but that value's promise and no listener |
| Readers.Listen | src/index.js:141-152 | `useLoadable` registers one listener per loading promise, at the end of the render's unsubscribe list; the listener sets gain exactly the listeners whose unsubscribes are on that list |
| Readers.MapInto | src/index.js:200-206 | The loop over the states gives exactly `MapStates` on the table before the render. The table gains exactly the promises read, each with the record `Observe` gave. The listener sets gain exactly the listeners on the render's unsubscribe list, which is empty for `useValue`. The context holds each state's api and value. For `useLoadable`, the `k`-th unsubscribe removes the listener of the `k`-th collected promise |
| Readers.Render | src/index.js:185-206 | One render of a valid input resets the context as `BeginRender` states and gives exactly `MapStates` on the table before it, with the map's guarantees on the table and the context |
| Readers.UseStates | src/index.js:168-206 | `useStates` returns exactly `StatesSpec`. An invalid input changes neither the context nor the table. Otherwise the render fields are reset as `BeginRender` states, the table gains exactly the promises read and exactly the listeners on the render's list, and the map's guarantees hold |
| Readers.UseValue | src/index.js:69-93 | `useValue` returns exactly `ReadSpec` for the value reader: the shaped values, a suspension on every loading promise, or the failure. The table gains exactly the promises read; no listener set changes and the unsubscribe list stays empty |
| Readers.UseLoadable | src/index.js:134-162 | `useLoadable` returns exactly `ReadSpec` for the loadable reader. The table gains exactly the promises read, and the listener sets gain exactly one listener per loading promise read, each removable by its entry on the render's list |
| Effects.MountReleasesApis | src/index.js:232-237 | The list the effect builds releases, on unmount, every api the first render read, each once and in reading order |
| Effects.MountReleasesScope | src/index.js:220-237 | That list releases the scope callback the effect added and no other |
| Effects.Effect.Mount | src/index.js:208-234 | The effect reads the scope's frozen-ness. It subscribes to the scope and then to every api the render read, appending each unsubscribe to the render's list in that order. Nothing is held back yet |
| Effects.Effect.HandleChange | src/index.js:213-219 | While frozen, a change is remembered instead of re-rendering; otherwise the consumer re-renders. A held-back change exists only while frozen or unmounted |
| Effects.Effect.HandleFreezeChange | src/index.js:223-229 | The frozen flag is re-read. A remembered change of a mounted consumer is handed to the scope's flush, as that render's `rerender`, exactly when the scope is now unfrozen; it is then forgotten |
| Effects.Effect.Release | src/index.js:237 | Calling one unsubscribe removes its listener or scope callback, or releases its api, and nothing else |
| Effects.Effect.Cleanup | src/index.js:235-238 | The consumer is marked unmounted. Every captured unsubscribe is called: the scope loses exactly the callbacks on the list, each promise's set loses exactly the listeners on the list, and the released apis come back in order |
| Effects.ReleasedOnlyListener | src/index.js:235-238 | When a promise's only listener has its unsubscribe on the list, the cleanup leaves that promise with no listener, whatever other promises the table holds |
| Scenarios.SuspendThenResolve | src/index.js:69-93 | `useValue` on a pending promise suspends on it; after it resolves, the retried render reads the payload |
| Scenarios.RenderLoading | src/index.js:134-162 | The first `useLoadable` render over a pending promise shows `loading`; the table then holds exactly that promise, `loading`, with exactly one listener, which would re-render |
| Scenarios.LoadableRerendersOnSettle | src/index.js:137-153 | `useLoadable` on a pending promise shows `loading` and registers a listener. Settlement calls exactly that listener, which re-renders, and the next render shows the payload |
| Scenarios.FrozenConsumer | src/index.js:208-234 | A frozen consumer holds back a change, and unfreezing queues its re-render, which the flush calls once. A consumer under an unfrozen scope re-renders at once |
| Scenarios.UnmountDropsListener | src/index.js:235-238 | Unmounting a `useLoadable` consumer releases its state and leaves the promise with no listener, so a later settlement calls nobody |

## Left out

- React plumbing is not modelled: the `Freeze` element, `useState`, `useRef`, `useContext`, `createContext` and `createElement` (src/index.js:13-24, 182-186). The enclosing scope is a parameter, and a re-render is a `Rerender` id or a returned boolean. Each consumer mounts its effect once, as the empty dependency list makes React do.
- `setTimeout` and `clearTimeout` are not modelled as timers. The pending timer is the `flushPending` flag and its firing is `Flush()`; real-time ordering against other events is not modelled.
- Promise `.then` and `.finally` callbacks are collapsed into the one atomic event `Settle`. Interleavings between a settlement and its `finally` step are not modelled. `sameThread` is kept, and it is always clear by then.
- `Promise.all(promises)` is not modelled as a value. A suspension is the `Suspend` result carrying the pending promise ids in order.
- The external state library is not part of this model. `api.get()` is the parameter `get`. The callbacks `api.subscribe` would call later are not simulated; `HandleChange` is called directly.
- Callbacks are never executed. Subscribers, listeners and re-render functions are returned as a sequence, each exactly once. Re-entrant callbacks that change a set while it is being iterated are not modelled.
- JavaScript value details are not modelled. `setFrozen` takes booleans only. Any value that is not a thenable is a plain payload, and identity comparison of values is equality of promise ids.
- Readers.UseStates: when an element throws midway through the map, the apis, values and listeners recorded before it are not described; only the failure and the table's invariants are stated.
- Basics.Enumerate: the order in which a JavaScript `Set` is iterated (insertion order, src/index.js:46, 55, 126) is not modelled. Subscribers, listeners and re-render functions come back in some order, each exactly once.
- Effects.Effect.Cleanup: the api unsubscribes are returned in order rather than called, since the state library is not modelled.
- `src/index.test.js` and `src/index.d.ts` are not part of this model. The tests drive React and real delays; the scenarios above restate their stories. The type declarations differ from the code in two places: the `Loadable` state union names `'hasError'` where the code writes `'error'` (src/index.d.ts:15, src/index.js:119), and an array element is typed as a state or a `[value, api]` tuple only (src/index.d.ts:4), while the code calls any other element to get its api (src/index.js:201).
