# redux-addons core, modelled in Dafny

redux-addons helps build redux libraries. This project models three parts of it:

- **The idle-monitor dispatcher** (`src/lib/dispatcher.js`): a tiered state store, an activity filter, a detection switch and a timeout/transition machine. The store holds an in-memory "fast" record, `localStorage` entries and the library's slice of the redux state. The machine moves through a list of named states.
- **The redux-compatible store utilities** (`src/lib/store.js`):
  - constant-case key formatting;
  - a browser-storage state accessor with one storage key per state field;
  - a browser store with `dispatch`, `subscribe` and `replaceReducer`;
  - the subscribe-filtered (merging) reducers;
  - path selection of a sub state and `bisectStore`;
  - the action and store multiplexers.
- **Context construction** (`src/lib/context.js`):
  - action-type names;
  - validation of the library and application options;
  - normalisation of the library options and the merged context.

## How it is organised

- **`wrappers.dfy`** (`Wrappers`): `Option` and `Result`. `Failure` stands for a thrown exception: a chai assertion outside production, or a `TypeError`.
- **`js_values.dfy`** (`JsValues`): the JavaScript values the code inspects. It also gives truthiness, `typeof`, numeric coercion, `Object.assign` (the `Overlays` predicate), `new Map(entries)`, `indexOf` and ASCII `toUpperCase`.
- **`store.dfy`** (`Stores`): the store utilities.
  - A storage medium whose items are updated in place (`Storage`).
  - The accessor (`StateAccessor`), whose `setState`/`getState` loops are proved against the functions `WriteAll`/`ReadAll`.
  - The store (`BrowserStore`), with its listener array, dispatching flag and reducer as fields.
  - `selectState`, which shifts keys off an array object (`KeyList`) it shares with `bisectStore`.
- **`multiplexer.dfy`** (`Multiplexers`): the action and store multiplexers. Creators and translators are data; the `mapReduceStores` and `selectFirst` loops are methods.
- **`context.dfy`** (`Context`): context construction, all pure functions.
- **`dispatcher.dfy`** (`Dispatcher`): every dispatcher operation as a function over a `Monitor` snapshot. A snapshot holds:
  - the fast record, the local entries and the lib slice;
  - a table of pending timers (id ↦ state name) and the next timer id;
  - whether the activity listeners are attached;
  - one trace of effects in the order they happen. An effect is a dispatched action, a dispatched `start()` or an invoked user action.

  Each operation returns an `Outcome`: the state reached, together with the result or the error thrown. The state reached before a throw is kept.
- **`idle_monitor.dfy`** (`IdleMonitors`): the class `IdleMonitor`, which holds the same state in fields. Its methods perform the JavaScript steps in place. Each method is proved equal to the function of the same name in `Dispatcher`.
- **`dispatcher_proofs.dfy`** (`DispatcherProofs`): the properties of the dispatcher, including:
  - well-formedness of the fast tier;
  - what `schedule`, `execute` and a timer going off do to the timer table: new ids are fresh, the stored timer is cancelled, a fired timer is gone;
  - tracking of the pending timer along the `execute` and timer paths, and two ways a timer escapes it;
  - traces that only grow;
  - the effects and their order for `schedule`/`execute`;
  - a worked chain of three states.

### How the environment is represented

- Time is the parameter `now`.
- A timer is an entry in the timer table. A timer going off is the operation `Fire`.
- The configured context is the datatype `Config`.
  - Callers choose `getNextActionName` and `getTimeoutMS` (`nextOf`, `timeoutOf`).
  - Reducers, creators and `configureAppContext`, `configureInitialState` and `validateContext` are function parameters.
  - `IDLEMONITOR_ACTIVITY` is the parameter `activityKey`.
- Running a user action and dispatching `actions.start()` are recorded in the trace.

Termination of the mutual recursion `schedule` → `execute` → `schedule` rests on one precondition, `MovesForward`. It says every non-empty next name lies strictly further along `actionNames`. The recursion decreases `|actionNames| - indexOf(actionName)`.

The reducer that receives the dispatcher's `setState` actions is not part of the source. The model assumes it is the library's merging reducer (`createMergingReducer`, `src/lib/store.js:173`) subscribed to the action's type. So the lib slice becomes the patch laid over the old slice. `DispatcherProofs.LibFollowsMergingReducer` states exactly this link.

## The code as written

The model follows the code, including where the code's comments and log messages say something else:

- **The redux bypass never happens.** `_shouldSetState` ignores its key list and always tests the fast keys (`src/lib/dispatcher.js:25`). After `_shouldSetFastState` held, `_shouldSetReduxState` holds as well. So every `setState` dispatches its action (`Dispatcher.SetState`).
- **`setLocalState` always runs.** Its guard is the function object `_shouldSetLocalState`, not a call to it (`src/lib/dispatcher.js:120`). Every state write stamps `localStorage`, even with `useLocalStore` off.
- **Start and stop always fail without a fast store.** `stores.fast` is then the redux accessor, which has no `isDetectionRunning` field. Outside production, `start` and `stop` therefore always fail their assertions, and `isRunning` is `undefined` (`Dispatcher.Start`, `Dispatcher.Stop`, `Dispatcher.IsRunning`).
- **Start and stop refresh the fast `lastActive`.** Their `isDetectionRunning` write goes through `setFastState`, which forces `lastActive` to the current time.
- **The pending timer's id is lost without a fast store.** When a state runs its successor at once, and that successor sets a timer, the outer `execute` afterwards writes `timeoutID: undefined`. With the fast store, the id survives in the fast state, because that write carries no defined fast field. Without it, the redux slice is the only record, and the id is lost (`DispatcherProofs.ChainRunsInnermostFirst`).
- **`schedule` does not store the id it returns.** Only `execute` writes it into the state, and `clear` cancels only the stored id. Two calls of `schedule` in a row therefore leave two timers pending (`DispatcherProofs.RepeatedScheduleKeepsBothTimers`).
- **A pause leaves the pending timer running.** A paused `execute` schedules nothing, and its write replaces the stored id by `timeoutID: null`. A timer set earlier stays pending, `clear` can no longer reach it, and when it goes off its state runs unpaused and starts detection again (`DispatcherProofs.PauseIsUndoneByPendingTimer`).
- **Unsubscribing an absent listener removes another one.** An unsubscribe function called when its listener is no longer subscribed computes `splice(-1, 1)`, which removes the last listener (`Stores.Unsubscribed`).
- **`selectState` reads the root state and consumes its keys.** Each step indexes the root state, not the previous result. The keys are shifted off the caller's array, which for `bisectStore` is the array captured once and shared by every `getState` call (`Stores.SelectState`, `Stores.BisectedStore.GetState`).
- **The default storage key can collide.** `toConstCase` replaces only the first `-` or space. Different state keys can therefore share one storage key: `a-b` and `a_b` do (`Stores.DefaultFormatKeyCollides`).
- **Action names are cleaned only once.** `cleanActionName` replaces only the first run of dashes followed by whitespace (`Context.CleanActionName`).

## Model

| member | source | states |
|---|---|---|
| JsValues.MapFromEntries | src/lib/context.js:95 | `new Map(entries)` has exactly the keys of the entries |
| JsValues.MapFromEntriesLastWins | src/lib/store.js:227 | a Map holds, for a key, the value of the last entry with that key |
| Stores.FirstDashOrSpace | src/lib/store.js:7 | the match of `/[- ]/`: the first index holding `-` or a space, or -1 when there is none |
| Stores.ToConstCase | src/lib/store.js:7 | same length; the first `-` or space becomes `_`, every other character is upper-cased |
| Stores.DefaultFormatKey | src/lib/store.js:29 | the default storage key is `CONST(prefix)`, then `_`, then `CONST(key)` |
| Stores.DefaultFormatKeyCollides | src/lib/store.js:29 | the distinct state keys `a-b` and `a_b` get the same default storage key |
| Stores.Storage.constructor | src/lib/store.js:27 | the storage medium starts with the given items |
| Stores.Storage.SetItem | src/lib/store.js:51 | `setItem` sets one key and leaves the other items alone |
| Stores.KeyMap | src/lib/store.js:42 | the key map pairs each state key, in order, with `formatKey(prefix, key)` |
| Stores.WriteAll | src/lib/store.js:48-52 | `setState` removes no item and leaves an item under every storage key of the key map |
| Stores.ReadAll | src/lib/store.js:61-66 | `getState()` has every configured state key, and each value it returns is a stored item or `null` |
| Stores.WriteAllFrame | src/lib/store.js:48-52 | `setState` writes exactly the storage keys of the key map; every other item keeps its value |
| Stores.WriteAllIgnoresOtherKeys | src/lib/store.js:48-52 | two new states that agree on the configured keys leave identical storage: other keys are ignored |
| Stores.WriteAllAt | src/lib/store.js:48-52 | with distinct storage keys, each key's storage slot holds `newState[key]` after `setState` |
| Stores.ReadAllAt | src/lib/store.js:61-66 | with distinct state keys, `getState()[key]` is the item stored under that key's storage key |
| Stores.ReadAllKeys | src/lib/store.js:61-66 | `getState()` has exactly the configured state keys |
| Stores.AccessorRoundTrip | src/lib/store.js:36-66 | when `formatKey` is injective on the keys, `getState()` after `setState(s)` has exactly the configured keys and returns `s[k]` for each |
| Stores.StateAccessor.constructor | src/lib/store.js:36-69 | the key set is fixed at creation from `Object.keys(initialState)` (distinct keys, exactly those of `initialState`); creation writes `initialState` |
| Stores.StateAccessor.SetState | src/lib/store.js:48-52 | the loop leaves storage equal to writing `newState[key]` under every storage key in order |
| Stores.StateAccessor.GetState | src/lib/store.js:61-66 | the loop returns the record read from every storage key |
| Stores.Unsubscribed | src/lib/store.js:100-103 | unsubscribe removes the first occurrence of a present listener (one fewer in the multiset); for an absent listener it removes the last one |
| Stores.BrowserStore.constructor | src/lib/store.js:94-97 | a new store has the given reducer, no listeners and is not dispatching |
| Stores.BrowserStore.Configure | src/lib/store.js:90-123 | creation builds the key map from the keys of `initialState`, writes the initial state, then dispatches exactly one INIT action through the reducer; a throwing reducer fails creation after the initial write |
| Stores.BrowserStore.Subscribe | src/lib/store.js:98-99 | `subscribe` appends the listener and changes nothing else |
| Stores.BrowserStore.Unsubscribe | src/lib/store.js:100-103 | the listeners become `Unsubscribed(listeners, listener)`; nothing else changes |
| Stores.BrowserStore.Dispatch | src/lib/store.js:105-116 | a reentrant dispatch throws and changes nothing; otherwise it stores `reducer(getState(), action)`, resets `isDispatching` even when the reducer throws, then notifies the current listeners and returns the action; a reducer that dispatches throws the reentrancy error and changes nothing |
| Stores.BrowserStore.ReplaceReducer | src/lib/store.js:117-120 | installs the new reducer, then dispatches one INIT action through it; returns undefined, or throws what that dispatch throws, with storage and listener calls unchanged |
| Stores.ConfigureReducer | src/lib/store.js:167 | an unsubscribed type keeps the state; a subscribed one gives `actionReducer(action)`, overlaid on the state when merging |
| Stores.MergingReducer | src/lib/store.js:173 | a subscribed action's payload is overlaid on the state: payload keys win, other keys are kept |
| Stores.KeyList.constructor | src/lib/store.js:182 | the shared key array holds the given keys |
| Stores.SelectState | src/lib/store.js:195-203 | a falsy state throws; otherwise keys are shifted off the caller's array while the result is truthy; each step reads the root state; the result is the last value read, or `defaultValue` when that is falsy |
| Stores.BisectedStore.constructor | src/lib/store.js:182-192 | the sub store captures one fresh key array |
| Stores.BisectedStore.GetState | src/lib/store.js:190 | `getState` consumes the captured keys as `selectState` does; they are emptied when every selected value is truthy, and with no keys left it returns the root state; the result is the last value read, with no default |
| Stores.BisectStore | src/lib/store.js:182-192 | fails exactly when no key is given; otherwise the sub store's array holds the keys |
| Multiplexers.Translated | src/lib/store.js:229-233 | the identity translator keeps a creator's value; the delay translator overlays `{ delay }` on it |
| Multiplexers.CreateAction | src/lib/store.js:229-247 | an action has the creator's type; payload and meta are each produced from the arguments, then kept or overlaid with `{ delay }` by their translator |
| Multiplexers.CreateActionMultiplexer | src/lib/store.js:219-227 | the action Map has exactly the configured names, each holding the definition of its last entry |
| Multiplexers.SelectActionCreator | src/lib/store.js:237-247 | succeeds exactly when the name is configured and its type is a non-empty string; the creator then carries that definition and the translators |
| Multiplexers.SelectDelayedActionCreator | src/lib/store.js:249 | fails exactly when the plain creator does; otherwise it is the plain creator with the delay translator on its meta |
| Multiplexers.SelectAction | src/lib/store.js:251 | fails exactly for an unconfigured name or a type that is not a non-empty string; otherwise the action has that type and the payload and meta its creators produce |
| Multiplexers.DelayedCreatorAddsDelay | src/lib/store.js:249-251 | the delayed creator fails exactly when the plain one does; its actions have the same type and payload, and the meta gains `{ delay }` |
| Multiplexers.MapReduceStores | src/lib/store.js:271-276 | one result per configured store name, namely the operation applied to that store |
| Multiplexers.Dispatch | src/lib/store.js:294 | `dispatch` reaches every configured store and returns name ↦ that store's dispatch result |
| Multiplexers.GetState | src/lib/store.js:295 | `getState` returns name ↦ that store's state for every configured store |
| Multiplexers.Select | src/lib/store.js:303 | `select` returns at most one store per requested name |
| Multiplexers.SelectAppend | src/lib/store.js:303 | `select` of concatenated names is the concatenation of the selections, so the requested order is kept |
| Multiplexers.SelectOne | src/lib/store.js:303 | a configured name contributes its store; an unconfigured one contributes nothing |
| Multiplexers.SelectFirst | src/lib/store.js:296-302 | returns the first configured store among the names, which is `select(...names)[0]`; it throws exactly when none is configured |
| Multiplexers.ActionToDispatch | src/lib/store.js:284-290 | with `delay <= 0` the plain action; otherwise the delayed one, which fails exactly when the plain one does and adds `{ delay }` to the meta |
| Multiplexers.DispatchAction | src/lib/store.js:292 | fails exactly when the action cannot be created; otherwise it dispatches that action to every configured store |
| Context.RunEnd | src/lib/context.js:50 | the end of the run of one character starting at an index |
| Context.WhitespaceEnd | src/lib/context.js:50 | the end of the run of whitespace starting at an index |
| Context.FindMatch | src/lib/context.js:50 | the leftmost index where `/-+\s+/` matches, or none when it matches nowhere |
| Context.CleanActionName | src/lib/context.js:50 | upper-cases the name; with no match that is all; otherwise the leftmost dash run and the whitespace after it become one `_`; the result has no lower-case ASCII letter |
| Context.CreateActionType | src/lib/context.js:125 | `clean(libName)_clean(appName)_clean(actionName)`; fails exactly when `appName` is not a string |
| Context.FirstComponents | src/lib/context.js:96-127 | `libActionNames` and `libActionTypes`: the first components of `libActions` and of the typed actions, same length and order |
| Context.TypedLibActions | src/lib/context.js:126 | same length and order as `libActions`; each name becomes its action type and each context is kept; fails exactly when there is an action and `appName` is not a string |
| Context.GetLibActionContextByOrdinal | src/lib/context.js:131 | the context at that ordinal; fails exactly outside the array |
| Context.OrdinalAgreesWithMap | src/lib/context.js:95-131 | for a name that no later action reuses, the ordinal lookup agrees with `libActionMap` |
| Context.ValidateLibOpts | src/lib/context.js:54-75 | passes exactly for a non-empty string `libName`, an array of pairs of a string and an object, and three function-valued hooks |
| Context.TypedLibOptsValidation | src/lib/context.js:54-75 | for options of the typed shape, validation passes exactly when `libName` is non-empty and every action context is an object |
| Context.ValidateAppOpts | src/lib/context.js:78-84 | passes exactly when the options are truthy and `appName` is a non-empty string |
| Context.NormalizeLibOpts | src/lib/context.js:91-106 | fails exactly outside production on invalid options; otherwise it keeps the options and adds the ordered names and the action Map `new Map(libActions)` |
| Context.NormalizeAppOpts | src/lib/context.js:107-112 | fails exactly outside production without a non-empty string `appName`; otherwise it copies the options |
| Context.LibContextOf | src/lib/context.js:118-145 | the library context exists exactly when validation passes (or production skips it) and action types can be formed; its action Map is `new Map(libActions)`; its typed actions and types follow `libActions` one for one |
| Context.ConfigureContext | src/lib/context.js:148-154 | the result has every `appContext` and `libContext` key plus `initialState`; library fields win; other app fields are kept; `initialState` is computed once on the merged context; a failing `validateContext` fails outside production |
| Dispatcher.ShouldSetState | src/lib/dispatcher.js:25 | true exactly when the patch has a fast key with a defined value, whatever key list is passed |
| Dispatcher.FilterState | src/lib/dispatcher.js:31-37 | the patch restricted to the given keys |
| Dispatcher.SetFastState | src/lib/dispatcher.js:46-47 | the fast fields of the patch over the old fast state; `lastActive` forced to now; nothing else changes |
| Dispatcher.SetLocalState | src/lib/dispatcher.js:61-63 | the local `lastActive` entry becomes now, or the patch's `lastActive` when it has one; other entries are kept |
| Dispatcher.SetState | src/lib/dispatcher.js:119-129 | every write stamps the local tier; the fast tier changes only with `useFastStore` and a defined fast key; the lib slice becomes the patch over the old one; the action is always dispatched; timers and listeners are untouched |
| Dispatcher.Create | src/lib/dispatcher.js:39-54 | the initial fast state (with `useFastStore`), the initial local entry (with `useLocalStore`), no timers, not listening, an empty trace |
| Dispatcher.ReduxRead | src/lib/dispatcher.js:76-95 | `lastActive`/`lastEvent`/`timeoutID` come from the fast tier exactly with `useFastStore`; `actionName`/`isIdle`/`isPaused` always come from the lib slice; any other data field is undefined (the getters `next` and `remainingMS` are `Next` and `RemainingMS`) |
| Dispatcher.FastRead | src/lib/dispatcher.js:115 | `stores.fast` is the fast state with `useFastStore`, otherwise the redux accessor |
| Dispatcher.IsRunning | src/lib/dispatcher.js:179 | the fast `isDetectionRunning` flag; undefined without a fast store |
| Dispatcher.Next | src/lib/dispatcher.js:96-100 | the name after the current one, none after the last, the first name when the current name is absent |
| Dispatcher.RemainingMS | src/lib/dispatcher.js:103-108 | 0 when idle, otherwise `max(0, timeoutMS - (now - lastActive))`, and 0 when either is NaN |
| Dispatcher.ShouldActivityUpdate | src/lib/dispatcher.js:149-165 | every event but `mousemove` qualifies; a `mousemove` throws exactly when there is no last event to destructure |
| Dispatcher.OnActivity | src/lib/dispatcher.js:167-177 | a non-qualifying event changes nothing; a qualifying one away from the initial state dispatches `start()` only; otherwise it writes `lastActive` and `lastEvent` |
| Dispatcher.Start | src/lib/dispatcher.js:180-186 | fails exactly outside production when detection is not recorded as stopped, and always fails then without a fast store; otherwise it attaches the listeners and writes `isDetectionRunning: true` |
| Dispatcher.Stop | src/lib/dispatcher.js:187-193 | fails exactly outside production when detection is not recorded as running; otherwise it detaches the listeners and writes `isDetectionRunning: false` |
| Dispatcher.Clear | src/lib/dispatcher.js:135 | cancels the timer whose id `stores.fast.timeoutID` holds; changes nothing else |
| Dispatcher.ResolveTimeout | src/lib/dispatcher.js:136-139 | a delay value is used as it is, the same value `remainingMS` reads; a function delay is called with the lib state at the moment of scheduling |
| Dispatcher.IsPauseTriggered | src/lib/dispatcher.js:202 | the pausing delays are exactly the falsy ones other than `0` and `""` |
| Dispatcher.Schedule | src/lib/dispatcher.js:205-213 | the timer whose id the fast state holds is no longer pending afterwards; every new timer has a fresh id; a returned id names a pending timer for the scheduled state |
| Dispatcher.PauseEdge | src/lib/dispatcher.js:225-232 | no edge, no change; on a pause edge a successful flip detaches the listeners, on an unpause edge it attaches them; timers are untouched |
| Dispatcher.Finish | src/lib/dispatcher.js:225-242 | after scheduling, `execute` touches no timer, and it succeeds only if scheduling did |
| Dispatcher.Execute | src/lib/dispatcher.js:216-243 | every timer it creates has a fresh id; a paused `execute` creates no timer at all |
| Dispatcher.Fire | src/lib/dispatcher.js:211 | an unknown timer does nothing; a fired timer is no longer pending afterwards, and later timers get fresh ids |
| Dispatcher.ChildContext | src/lib/dispatcher.js:247 | the context with `actions` replaced by `childActions` and every other field kept |
| DispatcherProofs.LibFollowsMergingReducer | src/lib/dispatcher.js:128 | the lib slice after `setState` is what the merging reducer makes of the dispatched action |
| DispatcherProofs.FastStateKeepsItsKeys | src/lib/dispatcher.js:46-47 | non-fast keys of a patch never enter the fast state |
| DispatcherProofs.MouseMoveQualifies | src/lib/dispatcher.js:149-165 | with numeric inputs, a mouse move qualifies exactly when it moved at least the mouse threshold on some axis and the elapsed threshold has passed |
| DispatcherProofs.MouseMoveEdgeCases | src/lib/dispatcher.js:153-161 | a mouse move without both coordinates never qualifies; NaN thresholds hold nothing back |
| DispatcherProofs.CreateWellFormed | src/lib/dispatcher.js:39-45 | a new dispatcher has exactly the four fast fields and is listening exactly when detection is recorded as running |
| DispatcherProofs.SetStateWellFormed | src/lib/dispatcher.js:119-129 | a write without `isDetectionRunning` keeps the dispatcher well formed |
| DispatcherProofs.StartWellFormed | src/lib/dispatcher.js:180-186 | `start` keeps the dispatcher well formed |
| DispatcherProofs.StopWellFormed | src/lib/dispatcher.js:187-193 | `stop` keeps the dispatcher well formed |
| DispatcherProofs.OnActivityWellFormed | src/lib/dispatcher.js:170-177 | `onActivity` keeps the dispatcher well formed |
| DispatcherProofs.ClearWellFormed | src/lib/dispatcher.js:135 | `clear` keeps the dispatcher well formed |
| DispatcherProofs.ScheduleWellFormed | src/lib/dispatcher.js:205-213 | `schedule` keeps the dispatcher well formed |
| DispatcherProofs.FinishWellFormed | src/lib/dispatcher.js:225-242 | the pause edge, state write and user action of `execute` keep the dispatcher well formed |
| DispatcherProofs.ExecuteWellFormed | src/lib/dispatcher.js:216-243 | `execute` keeps the dispatcher well formed |
| DispatcherProofs.FireWellFormed | src/lib/dispatcher.js:211 | a timer going off keeps the dispatcher well formed |
| DispatcherProofs.TrackedTimerIsUnique | src/lib/dispatcher.js:205-213 | when every pending timer is the one the fast state records, at most one timer is pending |
| DispatcherProofs.SetStateKeepsTimeoutID | src/lib/dispatcher.js:119-129 | a write that does not reach the fast `timeoutID` keeps it |
| DispatcherProofs.ScheduleTracksTimer | src/lib/dispatcher.js:205-213 | on a tracked dispatcher, a new timer is the only one pending; an immediate execution returns undefined and leaves the timers tracked |
| DispatcherProofs.PauseEdgeKeepsTimers | src/lib/dispatcher.js:225-232 | flipping detection touches neither the timers nor the stored timer id |
| DispatcherProofs.ExecuteWriteRecordsTimer | src/lib/dispatcher.js:235-239 | the state write records a new timer's id in the fast state |
| DispatcherProofs.ExecuteWriteKeepsTimer | src/lib/dispatcher.js:235-239 | a write of `timeoutID: undefined` leaves the tracked timer alone |
| DispatcherProofs.ExecuteWriteTracksTimer | src/lib/dispatcher.js:223-239 | for each timeout id that scheduling can hand over, the state write leaves the timers tracked |
| DispatcherProofs.FinishTracksTimer | src/lib/dispatcher.js:223-242 | after tracked scheduling, a successful end of `execute` leaves the timers tracked |
| DispatcherProofs.ExecuteTracksTimer | src/lib/dispatcher.js:216-243 | a successful `execute` with no timer pending leaves every timer it creates tracked |
| DispatcherProofs.FireTracksTimer | src/lib/dispatcher.js:211 | on a tracked dispatcher, a successful timer firing leaves the timers tracked |
| DispatcherProofs.ScheduleExtendsTrace | src/lib/dispatcher.js:205-213 | `schedule` only appends effects |
| DispatcherProofs.FinishExtendsTrace | src/lib/dispatcher.js:225-242 | the end of `execute` only appends effects |
| DispatcherProofs.ExecuteExtendsTrace | src/lib/dispatcher.js:216-243 | `execute` only appends effects |
| DispatcherProofs.PauseDelays | src/lib/dispatcher.js:202-211 | no delay that pauses sets a timer |
| DispatcherProofs.FinishEffects | src/lib/dispatcher.js:225-242 | detection flips exactly on a pause edge; the last two effects are the state write and then the user action; the written fields are `actionName`, `isIdle`, `isPaused` and `timeoutID` |
| DispatcherProofs.ExecuteEffects | src/lib/dispatcher.js:216-243 | `wasPaused` is read before any write; `timeoutID` is `null` without scheduling, the new timer's id, or undefined after an immediate run; then pause edges, the write and the user action, in that order |
| DispatcherProofs.ChainExecuteB | src/lib/dispatcher.js:216-243 | in the example chain, executing `b` sets timer 1 for `c`, then writes and invokes `b` |
| DispatcherProofs.ChainScheduleB | src/lib/dispatcher.js:205-213 | scheduling `b` with delay 0 executes it at once and returns undefined |
| DispatcherProofs.ChainExecuteA | src/lib/dispatcher.js:216-243 | executing `a` writes and invokes `b` before `a`; the pending timer's id survives only with the fast store |
| DispatcherProofs.ChainFinishA | src/lib/dispatcher.js:235-242 | the write of `a` stores `timeoutID: undefined`, which does not reach the fast state |
| DispatcherProofs.ChainRunsInnermostFirst | src/lib/dispatcher.js:205-243 | from a new dispatcher, the chain `a`, `b`, `c` has the trace [write b, run b, write a, run a], one timer for `c`, and a stored id only with the fast store |
| DispatcherProofs.RepeatedScheduleKeepsBothTimers | src/lib/dispatcher.js:205-211 | on a new dispatcher, `schedule` twice returns ids 1 and 2 and leaves both timers pending, since neither id is stored for `clear` |
| DispatcherProofs.PauseExecuteS0 | src/lib/dispatcher.js:205-239 | in the pause example, executing `s0` sets timer 1 for `s1` and stores its id in the fast state |
| DispatcherProofs.PausedExecuteLeavesTimer | src/lib/dispatcher.js:216-239 | a paused `execute` stops detection and stores `timeoutID: null`, while timer 1 stays pending and `clear` no longer reaches it |
| DispatcherProofs.TimerUndoesPause | src/lib/dispatcher.js:211-232 | when that timer goes off, its state runs unpaused and detection starts again |
| DispatcherProofs.PauseIsUndoneByPendingTimer | src/lib/dispatcher.js:205-243 | from a new dispatcher: execute `s0`, then a paused execute, then the pending timer going off restarts detection |
| IdleMonitors.IdleMonitor.constructor | src/lib/dispatcher.js:39-54 | the object starts in the state `Dispatcher.Create` describes |
| IdleMonitors.IdleMonitor.SetLocalState | src/lib/dispatcher.js:61-63 | the in-place local write matches `Dispatcher.SetLocalState`, and nothing else changes |
| IdleMonitors.IdleMonitor.SetState | src/lib/dispatcher.js:119-129 | the in-place write matches `Dispatcher.SetState` |
| IdleMonitors.IdleMonitor.OnActivity | src/lib/dispatcher.js:170-177 | the state and the result match `Dispatcher.OnActivity` |
| IdleMonitors.IdleMonitor.Start | src/lib/dispatcher.js:180-186 | the state and the result match `Dispatcher.Start` |
| IdleMonitors.IdleMonitor.Stop | src/lib/dispatcher.js:187-193 | the state and the result match `Dispatcher.Stop` |
| IdleMonitors.IdleMonitor.Clear | src/lib/dispatcher.js:135 | the state matches `Dispatcher.Clear` |
| IdleMonitors.IdleMonitor.Schedule | src/lib/dispatcher.js:205-213 | the state and the result match `Dispatcher.Schedule` |
| IdleMonitors.IdleMonitor.Execute | src/lib/dispatcher.js:216-243 | the state and the result match `Dispatcher.Execute` |
| IdleMonitors.IdleMonitor.Fire | src/lib/dispatcher.js:211 | a timer going off removes it and executes its state unpaused, as `Dispatcher.Fire` does |

## Left out

- **DOM event listeners.** `addEventListener`/`removeEventListener` on the active events are only the `listening` flag.
- **Timers and the clock.** `setTimeout`/`clearTimeout` are an abstract timer table, and `+new Date()` is the parameter `now`. There is no event loop, so a timer runs only when `Fire` is applied.
- **Logging.** `log.debug`/`trace`/`info`, `createLogger` (`./log`) and the `log` field of the library context are not modelled. Neither is `getLocalState`, which only feeds a log line.
- **Unseen local modules.** `./validate` is not part of this model. Neither are `./constants` or `vendor/redux-idle-monitor/actions`: their values are parameters (`activityKey`, `nextOf`, `timeoutOf`), and `actions.start()` is the effect `StartDispatched`.
- **`redux-actions` `createAction`.** An action is a plain `{ type, payload, meta }` record.
- **chai `assert`.** Assertions are `Failure` results with the same messages. The creation assertions that only check JavaScript types are covered by Dafny's types instead: `configureBrowserStateAccessor`, `assertBrowserStore`, and the array-of-pairs checks of the multiplexers (`src/lib/store.js:31-34`, `40-41`, `74-81`, `183-185`, `223-225`, `266-268`).
- **The JSON mode of the browser accessor.** Configuring `sessionStorage` or `localStorage` and the `create*Store` shorthands are not modelled either. The storage is the `Storage` class.
- **Storage coercion.** Real `localStorage`/`sessionStorage` coerce values to strings; here they store `Value`s.
- **`getLibState`.** The Immutable.js `isMap` probe and `ROOT_STATE_KEY` are not modelled: the lib slice is a plain record.
- **Broken or unused code.**
  - `delayOverride`/`creatorOverride`: `delayOverride` calls an undefined `overrideCreator`.
  - `getActionContextByName`/`ByType` refer to undefined maps; they appear in the library context only as function values.
  - `configureActionName` is unused.
  - The `local` getter always returns `{}`.
  - `createNoopStore` holds no logic.
- **`lib/`.** The compiled copies under `lib/` behave like `src/` and are not modelled again.
- **`src/lib/actions.js`.** It only forwards arguments into handlers the caller supplies.
- **Getters that only call user functions.** The `action` and `timeoutMS` getters of the redux accessor are not modelled. What a user action does when invoked is not modelled either; the trace records only that it ran.
- **Numbers.** Numbers are integers; floating point and string-to-number coercion are not modelled (`ToNumber` gives NaN for strings).
- **Strings.** `toUpperCase` maps ASCII letters only.
- **Object key order.** Objects are maps, so key order is lost. Where order matters (the accessor's key map, `new Map(entries)`, the store mapping), a sequence keeps it.
- Dispatcher.Schedule, Dispatcher.Execute and IdleMonitors.IdleMonitor.Execute: these require `MovesForward` and a state name from `actionNames`. The JavaScript would recurse forever on a configuration that cycles; the model does not cover such configurations.
- Dispatcher.Fire: it requires the fired timer's state to be in `actionNames`. Every timer that `Schedule` creates satisfies this.
- Dispatcher.Config: `getNextActionName` is taken to return `undefined` or a string.
- Context.ConfigureContext: `validateContext` is a boolean function, where false stands for it throwing.
- **Context options.** The library and application options are records. The two validators also take arbitrary values: `ValidateLibOpts`, `ValidateAppOpts`.
- Stores.StateAccessor.constructor and Stores.BrowserStore.Configure: `initialKeys` stands for `Object.keys(initialState)`. The preconditions say these keys are distinct and are exactly the keys of `initialState`; their order is the caller's. A falsy or non-object `initialState` cannot be expressed.
- Stores.BrowserStore.Dispatch: listeners are ids that run no code. So a listener that subscribes, unsubscribes or dispatches while being notified is not modelled, and neither is the `listeners.slice()` copy that guards against it. A reducer that calls `dispatch` is modelled (`DispatchesInside`); one that catches the reentrancy error and goes on is not.
- JsValues.Member and JsValues.OwnProps: the index properties and `length` of arrays and strings are not modelled. Arrays and strings have no properties here. So `selectState` paths through arrays are not covered. Neither is the copying of array or string properties by `Object.assign`, which `configureReducer`, `createMergingReducer` and the delay translator use.
- Stores.BisectStore: forwarding of `dispatch` and `subscribe` to the wrapped store is not modelled. Its `getState` takes the wrapped store's root state as an argument.
- Multiplexers.Dispatch and Multiplexers.GetState: what each store does when dispatched to is not modelled; the per-store operation is a function parameter.
- Multiplexers.Select: its own contract bounds only the length. `SelectAppend` and `SelectOne` state its contents and order.
