/**
 * The idle-monitor dispatcher of `src/lib/dispatcher.js`, as functions over a
 * snapshot of everything it reads and writes: the in-memory fast state, the
 * `localStorage` entries, the library's slice of the redux state, the pending
 * timers, whether the activity listeners are attached, and the trace of
 * dispatched actions and invoked user actions. Time is the parameter `now`.
 * The class in `idle_monitor.dfy` performs the same steps in place.
 */
module Dispatcher {
  import opened Wrappers
  import opened JsValues
  import Stores

  const FastStateKeys: set<string> := {"lastActive", "lastEvent", "timeoutID", "isDetectionRunning"}
  const LocalStateKeys: set<string> := {"lastActive"}
  const ReduxStateKeys: set<string> :=
    {"actionName", "isIdle", "isPaused", "lastActive", "lastEvent", "timeoutID", "isDetectionRunning"}

  /** The delay configured for a state: a value, or a function of the redux state resolved when scheduling. */
  datatype Timeout = Literal(value: Value) | Computed(compute: Record -> Value)

  /**
   * The context the dispatcher is configured with. `nextOf` is
   * `getNextActionName` (`None` is `undefined`), `timeoutOf` is `getTimeoutMS`,
   * `activityKey` is the `IDLEMONITOR_ACTIVITY` constant.
   */
  datatype Config = Config(
    useFastStore: bool,
    useLocalStore: bool,
    production: bool,
    activityKey: string,
    actionNames: seq<string>,
    initialActionName: string,
    initialLastEvent: Value,
    mouseThreshold: Value,
    elapsedThreshold: Value,
    nextOf: string -> Option<string>,
    timeoutOf: Value -> Timeout)

  /**
   * An observable effect, in the order it happens: an action dispatched by a
   * state write, `actions.start()` dispatched by a restart, or a user action invoked.
   */
  datatype Effect = Dispatched(action: Action) | StartDispatched | Invoked(actionName: string)

  datatype Monitor = Monitor(
    fast: Record,
    local: map<string, Value>,
    lib: Record,
    timers: map<nat, string>,
    nextTimerId: nat,
    listening: bool,
    trace: seq<Effect>)

  /** The state an operation leaves behind, with its result or the error it threw. */
  datatype Outcome<T> = Outcome(m: Monitor, r: Result<T, string>)

  datatype Event = Event(eventType: string, pageX: Value, pageY: Value)

  // ---------------------------------------------------------------- the stores

  /** `_shouldSetState(stateKeys, newState)`: the key list is ignored, the fast keys are always tested. */
  function ShouldSetState(stateKeys: set<string>, p: Record): (r: bool)
    ensures r <==> exists k :: k in p && k in FastStateKeys && p[k] != Undefined
  {
    exists k :: k in p && k in FastStateKeys && p[k] != Undefined
  }

  /** `_filterState(newState, stateKeys)` */
  function FilterState(p: Record, keys: set<string>): (r: Record)
    ensures r.Keys == p.Keys * keys
    ensures forall k :: k in r ==> r[k] == p[k]
  {
    map k | k in p && k in keys :: p[k]
  }

  /** `setFastState`: the patch's fast fields over the old fast state, `lastActive` forced to `now`. */
  function SetFastState(fast: Record, p: Record, now: int): (r: Record)
    ensures r.Keys == fast.Keys + (p.Keys * FastStateKeys) + {"lastActive"}
    ensures r["lastActive"] == Num(now)
    ensures forall k :: k in p && k in FastStateKeys && k != "lastActive" ==> r[k] == p[k]
    ensures forall k :: k in fast && (k !in p || k !in FastStateKeys) && k != "lastActive" ==> r[k] == fast[k]
  {
    fast + FilterState(p, FastStateKeys) + map["lastActive" := Num(now)]
  }

  /** The `localStorage` key of a local field. */
  function LocalKey(cfg: Config, key: string): string {
    cfg.activityKey + "_" + key
  }

  /** `setLocalState`: stamps `lastActive` with `now`, then copies the patch's `lastActive` if it has one. */
  function SetLocalState(cfg: Config, local: map<string, Value>, p: Record, now: int): (r: map<string, Value>)
    ensures r.Keys == local.Keys + {LocalKey(cfg, "lastActive")}
    ensures r[LocalKey(cfg, "lastActive")] == if "lastActive" in p then p["lastActive"] else Num(now)
    ensures forall k :: k in local && k != LocalKey(cfg, "lastActive") ==> r[k] == local[k]
  {
    var stamped := local[LocalKey(cfg, "lastActive"):= Num(now)];
    if "lastActive" in p then stamped[LocalKey(cfg, "lastActive") := p["lastActive"]] else stamped
  }

  /** The action `createAction(actionName)(newState)` */
  function StateAction(actionName: string, p: Record): Action {
    Action(actionName, Obj(p), Undefined)
  }

  /**
   * `setState(actionName, newState)`. The local write is guarded by the function
   * object `_shouldSetLocalState`, which is always truthy; the redux bypass needs
   * `_shouldSetReduxState` to fail right after `_shouldSetFastState` held, and the
   * two test the same keys. The redux reducer is taken to be the library's
   * merging reducer, so the lib slice becomes the patch over the old slice.
   */
  function SetState(cfg: Config, m: Monitor, actionName: string, p: Record, now: int): (r: Monitor)
    ensures r.local == SetLocalState(cfg, m.local, p, now)
    ensures r.fast == if cfg.useFastStore && ShouldSetState(FastStateKeys, p) then SetFastState(m.fast, p, now) else m.fast
    ensures Overlays(r.lib, m.lib, p)
    ensures r.trace == m.trace + [Dispatched(StateAction(actionName, p))]
    ensures r.timers == m.timers && r.nextTimerId == m.nextTimerId && r.listening == m.listening
  {
    var m1 := if Truthy(Fn("_shouldSetLocalState")) then m.(local := SetLocalState(cfg, m.local, p, now)) else m;
    var fastWritten := cfg.useFastStore && ShouldSetState(FastStateKeys, p);
    var m2 := if fastWritten then m1.(fast := SetFastState(m1.fast, p, now)) else m1;
    if fastWritten && !ShouldSetState(ReduxStateKeys, p) then m2
    else m2.(lib := m2.lib + p, trace := m2.trace + [Dispatched(StateAction(actionName, p))])
  }

  /** The initial fast state `createFastState()`. */
  function InitialFastState(cfg: Config, now: int): Record {
    map["lastActive" := Num(now), "lastEvent" := cfg.initialLastEvent,
        "timeoutID" := Undefined, "isDetectionRunning" := Bool(false)]
  }

  /** The dispatcher when `configureDispatcher(context)(dispatch, getState)` returns, over the lib slice `lib`. */
  function Create(cfg: Config, lib: Record, now: int): (m: Monitor)
    ensures m.fast == if cfg.useFastStore then InitialFastState(cfg, now) else map[]
    ensures m.local == if cfg.useLocalStore then map[cfg.activityKey := Obj(map["lastActive" := Num(now)])] else map[]
    ensures m.lib == lib && m.timers == map[] && !m.listening && m.trace == []
  {
    Monitor(
      if cfg.useFastStore then InitialFastState(cfg, now) else map[],
      if cfg.useLocalStore then map[cfg.activityKey := Obj(map["lastActive" := Num(now)])] else map[],
      lib, map[], 1, false, [])
  }

  // ------------------------------------------------------------- the accessors

  /** The fields the redux accessor serves from the fast state when there is one. */
  const TieredKeys: set<string> := {"lastActive", "lastEvent", "timeoutID"}
  /** The fields the redux accessor always serves from the lib slice. */
  const LibKeys: set<string> := {"actionName", "isIdle", "isPaused"}

  /**
   * A data field of `stores.redux`. The getters `next`, `action`, `timeoutMS`
   * and `remainingMS` are separate operations (`Next`, `RemainingMS`); any
   * other key reads as undefined.
   */
  function ReduxRead(cfg: Config, m: Monitor, key: string): (r: Value)
    ensures key in TieredKeys ==> r == if cfg.useFastStore then Get(m.fast, key) else Get(m.lib, key)
    ensures key in LibKeys ==> r == Get(m.lib, key)
    ensures key !in TieredKeys && key !in LibKeys ==> r == Undefined
  {
    if key in LibKeys then Get(m.lib, key)
    else if key in TieredKeys then (if cfg.useFastStore then Get(m.fast, key) else Get(m.lib, key))
    else Undefined
  }

  /** A field of `stores.fast`: the fast state itself, or the redux accessor without a fast store. */
  function FastRead(cfg: Config, m: Monitor, key: string): (r: Value)
    ensures cfg.useFastStore ==> r == Get(m.fast, key)
    ensures !cfg.useFastStore ==> r == ReduxRead(cfg, m, key)
  {
    if cfg.useFastStore then Get(m.fast, key) else ReduxRead(cfg, m, key)
  }

  /** `detection.isRunning`: without a fast store the redux accessor has no such field. */
  function IsRunning(cfg: Config, m: Monitor): (r: Value)
    ensures r == if cfg.useFastStore then Get(m.fast, "isDetectionRunning") else Undefined
  {
    FastRead(cfg, m, "isDetectionRunning")
  }

  /** `stores.redux.next`: `actionNames[actionNames.indexOf(actionName) + 1]`. */
  function Next(cfg: Config, m: Monitor): (r: Option<string>)
    ensures var a := ReduxRead(cfg, m, "actionName");
      !(a.Str? && a.s in cfg.actionNames) ==> r == if |cfg.actionNames| > 0 then Some(cfg.actionNames[0]) else None
    ensures var a := ReduxRead(cfg, m, "actionName");
      forall j :: 0 <= j < |cfg.actionNames| && a == Str(cfg.actionNames[j]) && cfg.actionNames[j] !in cfg.actionNames[..j] ==>
        r == if j + 1 < |cfg.actionNames| then Some(cfg.actionNames[j + 1]) else None
  {
    var a := ReduxRead(cfg, m, "actionName");
    var i := if a.Str? then IndexOf(cfg.actionNames, a.s) else -1;
    if i + 1 < |cfg.actionNames| then Some(cfg.actionNames[i + 1]) else None
  }

  /** JavaScript `a - b` on numbers; NaN propagates. */
  function Minus(a: Option<int>, b: Option<int>): Option<int> {
    if a.Some? && b.Some? then Some(a.value - b.value) else None
  }

  /** `Math.abs` */
  function Abs(a: Option<int>): Option<int> {
    if a.Some? then Some(if a.value < 0 then -a.value else a.value) else None
  }

  /** JavaScript `a < b` on numbers: false as soon as one side is NaN. */
  predicate Less(a: Option<int>, b: Option<int>) {
    a.Some? && b.Some? && a.value < b.value
  }

  /** The delay as `getTimeoutMS` states it, before any function is called. */
  function LiteralTimeout(t: Timeout): Value {
    if t.Literal? then t.value else Fn("timeoutMS")
  }

  /** `stores.redux.remainingMS` */
  function RemainingMS(cfg: Config, m: Monitor, now: int): (r: int)
    ensures r >= 0
    ensures Truthy(ReduxRead(cfg, m, "isIdle")) ==> r == 0
    ensures !Truthy(ReduxRead(cfg, m, "isIdle")) ==>
      var t := ToNumber(LiteralTimeout(cfg.timeoutOf(ReduxRead(cfg, m, "actionName"))));
      var lastActive := ToNumber(ReduxRead(cfg, m, "lastActive"));
      if t.Some? && lastActive.Some? then r == Max0(t.value - (now - lastActive.value)) else r == 0
  {
    if Truthy(ReduxRead(cfg, m, "isIdle")) then 0
    else
      var remaining := Minus(ToNumber(LiteralTimeout(cfg.timeoutOf(ReduxRead(cfg, m, "actionName")))),
                             Minus(Some(now), ToNumber(ReduxRead(cfg, m, "lastActive"))));
      if remaining.Some? && remaining.value > 0 then remaining.value else 0
  }

  function Max0(x: int): int {
    if x > 0 then x else 0
  }

  // ---------------------------------------------------------------- detection

  /** `_shouldActivityUpdate(e)`: destructuring a missing `lastEvent` throws. */
  function ShouldActivityUpdate(cfg: Config, m: Monitor, e: Event, now: int): (r: Result<bool, string>)
    ensures e.eventType != "mousemove" ==> r == Success(true)
    ensures e.eventType == "mousemove" ==>
      (r.Failure? <==> FastRead(cfg, m, "lastEvent").Undefined? || FastRead(cfg, m, "lastEvent").Null?)
  {
    if e.eventType != "mousemove" then Success(true)
    else
      var lastActive := FastRead(cfg, m, "lastActive");
      var lastEvent := FastRead(cfg, m, "lastEvent");
      if lastEvent.Undefined? || lastEvent.Null? then Failure("TypeError: cannot destructure lastEvent")
      else
        var x := Member(lastEvent, "x");
        var y := Member(lastEvent, "y");
        if e.pageX.Undefined? || e.pageY.Undefined? then Success(false)
        else if Less(Abs(Minus(ToNumber(e.pageX), ToNumber(x))), ToNumber(cfg.mouseThreshold))
             && Less(Abs(Minus(ToNumber(e.pageY), ToNumber(y))), ToNumber(cfg.mouseThreshold)) then Success(false)
        else if Less(Minus(Some(now), ToNumber(lastActive)), ToNumber(cfg.elapsedThreshold)) then Success(false)
        else Success(true)
  }

  /** The patch `onActivity` records. */
  function ActivityPatch(e: Event, now: int): Record {
    map["lastActive" := Num(now), "lastEvent" := Obj(map["x" := e.pageX, "y" := e.pageY])]
  }

  /** `onActivity(e)` */
  function OnActivity(cfg: Config, m: Monitor, e: Event, now: int): (o: Outcome<()>)
    ensures ShouldActivityUpdate(cfg, m, e, now).Failure? ==> o == Outcome(m, Failure(ShouldActivityUpdate(cfg, m, e, now).error))
    ensures ShouldActivityUpdate(cfg, m, e, now) == Success(false) ==> o == Outcome(m, Success(()))
    ensures ShouldActivityUpdate(cfg, m, e, now) == Success(true) && ReduxRead(cfg, m, "actionName") != Str(cfg.initialActionName) ==>
      o == Outcome(m.(trace := m.trace + [StartDispatched]), Success(()))
    ensures ShouldActivityUpdate(cfg, m, e, now) == Success(true) && ReduxRead(cfg, m, "actionName") == Str(cfg.initialActionName) ==>
      o == Outcome(SetState(cfg, m, cfg.activityKey, ActivityPatch(e, now), now), Success(()))
  {
    match ShouldActivityUpdate(cfg, m, e, now)
    case Failure(err) => Outcome(m, Failure(err))
    case Success(qualifies) =>
      if !qualifies then Outcome(m, Success(()))
      else if ReduxRead(cfg, m, "actionName") != Str(cfg.initialActionName) then
        Outcome(m.(trace := m.trace + [StartDispatched]), Success(()))
      else Outcome(SetState(cfg, m, cfg.activityKey, ActivityPatch(e, now), now), Success(()))
  }

  /** `detection.start()`: outside production it asserts that detection is not running. */
  function Start(cfg: Config, m: Monitor, now: int): (o: Outcome<()>)
    ensures o.r.Failure? <==> !cfg.production && FastRead(cfg, m, "isDetectionRunning") != Bool(false)
    ensures !cfg.useFastStore && !cfg.production ==> o.r.Failure?
    ensures o.r.Failure? ==> o.m == m
    ensures o.r.Success? ==> o.m == SetState(cfg, m.(listening := true), cfg.activityKey, map["isDetectionRunning" := Bool(true)], now)
  {
    if !cfg.production && FastRead(cfg, m, "isDetectionRunning") != Bool(false) then
      Outcome(m, Failure("activity detection is already running"))
    else Outcome(SetState(cfg, m.(listening := true), cfg.activityKey, map["isDetectionRunning" := Bool(true)], now), Success(()))
  }

  /** `detection.stop()`: outside production it asserts that detection is running. */
  function Stop(cfg: Config, m: Monitor, now: int): (o: Outcome<()>)
    ensures o.r.Failure? <==> !cfg.production && FastRead(cfg, m, "isDetectionRunning") != Bool(true)
    ensures !cfg.useFastStore && !cfg.production ==> o.r.Failure?
    ensures o.r.Failure? ==> o.m == m
    ensures o.r.Success? ==> o.m == SetState(cfg, m.(listening := false), cfg.activityKey, map["isDetectionRunning" := Bool(false)], now)
  {
    if !cfg.production && FastRead(cfg, m, "isDetectionRunning") != Bool(true) then
      Outcome(m, Failure("activity detection is not running"))
    else Outcome(SetState(cfg, m.(listening := false), cfg.activityKey, map["isDetectionRunning" := Bool(false)], now), Success(()))
  }

  // ------------------------------------------------------- timeouts and actions

  /** `timeout.clear()`: cancels the timer whose id `stores.fast.timeoutID` holds, if any. */
  function Clear(cfg: Config, m: Monitor): (r: Monitor)
    ensures FastRead(cfg, m, "timeoutID").Num? && FastRead(cfg, m, "timeoutID").n >= 0 ==>
      r == m.(timers := m.timers - {FastRead(cfg, m, "timeoutID").n as nat})
    ensures !(FastRead(cfg, m, "timeoutID").Num? && FastRead(cfg, m, "timeoutID").n >= 0) ==> r == m
  {
    var id := FastRead(cfg, m, "timeoutID");
    if id.Num? && id.n >= 0 then m.(timers := m.timers - {id.n as nat}) else m
  }

  /**
   * `timeout.timeoutMS(actionName)`: a delay value is used as it is (the value
   * the `remainingMS` getter reads too); a function-valued delay is called with
   * the state at the moment of the call.
   */
  function ResolveTimeout(cfg: Config, m: Monitor, actionName: string): (r: Value)
    ensures !cfg.timeoutOf(Str(actionName)).Computed? ==> r == LiteralTimeout(cfg.timeoutOf(Str(actionName)))
    ensures cfg.timeoutOf(Str(actionName)).Computed? ==> r == cfg.timeoutOf(Str(actionName)).compute(m.lib)
  {
    match cfg.timeoutOf(Str(actionName))
    case Literal(v) => v
    case Computed(f) => f(m.lib)
  }

  /** `_isPauseTriggered(timeoutMS)`: the falsy delays other than `0` and `""`. */
  function IsPauseTriggered(t: Value): (r: bool)
    ensures r <==> !Truthy(t) && t != Num(0) && t != Str("")
  {
    t == Null || t == Bool(false) || t == Undefined
  }

  /** JavaScript `timeoutMS > 0` */
  predicate Positive(t: Value) {
    ToNumber(t).Some? && ToNumber(t).value > 0
  }

  /** `nextActionName && !isPaused`: whether `execute` schedules the next state. */
  predicate SchedulesNext(next: Option<string>, isPaused: bool) {
    next.Some? && next.value != "" && !isPaused
  }

  /**
   * Every non-empty next name lies strictly further along `actionNames`.
   * Under this condition `schedule` and `execute` call each other finitely often.
   */
  ghost predicate MovesForward(cfg: Config) {
    forall s :: s in cfg.actionNames && SchedulesNext(cfg.nextOf(s), false) ==>
      cfg.nextOf(s).value in cfg.actionNames
      && IndexOf(cfg.actionNames, s) < IndexOf(cfg.actionNames, cfg.nextOf(s).value)
  }

  /** `schedule(actionName)`: the new timer's id, or `undefined` after running `execute` at once. */
  function Schedule(cfg: Config, m: Monitor, actionName: string, now: int): (o: Outcome<Value>)
    requires MovesForward(cfg) && actionName in cfg.actionNames
    decreases |cfg.actionNames| - IndexOf(cfg.actionNames, actionName), 1
    ensures m.nextTimerId <= o.m.nextTimerId
    ensures forall id :: id in o.m.timers && id !in m.timers ==> m.nextTimerId <= id
    ensures FastRead(cfg, m, "timeoutID").Num? && 0 <= FastRead(cfg, m, "timeoutID").n < m.nextTimerId ==>
      FastRead(cfg, m, "timeoutID").n as nat !in o.m.timers
    ensures o.r.Success? && o.r.value != Undefined ==>
      o.r.value.Num? && 0 <= o.r.value.n && o.r.value.n as nat in o.m.timers && o.m.timers[o.r.value.n as nat] == actionName
  {
    var cleared := Clear(cfg, m);
    var timeoutMS := ResolveTimeout(cfg, cleared, actionName);
    var isPaused := IsPauseTriggered(timeoutMS);
    if Positive(timeoutMS) then
      Outcome(cleared.(timers := cleared.timers[cleared.nextTimerId := actionName],
                       nextTimerId := cleared.nextTimerId + 1),
              Success(Num(cleared.nextTimerId)))
    else
      var e := Execute(cfg, cleared, actionName, isPaused, now);
      Outcome(e.m, if e.r.Success? then Success(Undefined) else Failure(e.r.error))
  }

  /** The state `execute` writes for `actionName`. */
  function ExecutePatch(actionName: string, next: Option<string>, isPaused: bool, timeoutID: Value): Record {
    map["actionName" := Str(actionName), "isIdle" := Bool(next.None?),
        "isPaused" := Bool(isPaused), "timeoutID" := timeoutID]
  }

  /** The flip of the detection switch `execute` performs on a pause edge. */
  function PauseEdge(cfg: Config, m: Monitor, isPaused: bool, wasPaused: bool, now: int): (o: Outcome<()>)
    ensures o.m.timers == m.timers && o.m.nextTimerId == m.nextTimerId
    ensures isPaused == wasPaused ==> o == Outcome(m, Success(()))
    ensures isPaused != wasPaused && o.r.Success? ==> o.m.listening == !isPaused
  {
    if isPaused && !wasPaused then Stop(cfg, m, now)
    else if !isPaused && wasPaused then Start(cfg, m, now)
    else Outcome(m, Success(()))
  }

  /**
   * The part of `execute` after scheduling, given the scheduling outcome `s`:
   * flip detection on a pause edge, write the state, invoke the user action.
   */
  function Finish(cfg: Config, s: Outcome<Value>, actionName: string, next: Option<string>,
                  isPaused: bool, wasPaused: bool, now: int): (o: Outcome<()>)
    ensures o.m.timers == s.m.timers && o.m.nextTimerId == s.m.nextTimerId
    ensures o.r.Success? ==> s.r.Success?
  {
    if s.r.Failure? then Outcome(s.m, Failure(s.r.error))
    else
      var d := PauseEdge(cfg, s.m, isPaused, wasPaused, now);
      if d.r.Failure? then Outcome(d.m, Failure(d.r.error))
      else
        var w := SetState(cfg, d.m, actionName, ExecutePatch(actionName, next, isPaused, s.r.value), now);
        Outcome(w.(trace := w.trace + [Invoked(actionName)]), Success(()))
  }

  /**
   * `execute({ actionName, isPaused })`: reads `wasPaused`, schedules the next
   * state, flips detection on a pause edge, writes the state, then invokes the
   * user action.
   */
  function Execute(cfg: Config, m: Monitor, actionName: string, isPaused: bool, now: int): (o: Outcome<()>)
    requires MovesForward(cfg) && actionName in cfg.actionNames
    decreases |cfg.actionNames| - IndexOf(cfg.actionNames, actionName), 0
    ensures m.nextTimerId <= o.m.nextTimerId
    ensures forall id :: id in o.m.timers && id !in m.timers ==> m.nextTimerId <= id
    ensures isPaused ==> o.m.timers == m.timers && o.m.nextTimerId == m.nextTimerId
  {
    var next := cfg.nextOf(actionName);
    var wasPaused := Truthy(ReduxRead(cfg, m, "isPaused"));
    Finish(cfg, if SchedulesNext(next, isPaused) then Schedule(cfg, m, next.value, now) else Outcome(m, Success(Null)),
           actionName, next, isPaused, wasPaused, now)
  }

  /** A pending timer going off: it leaves the table and runs `execute` for its state, unpaused. */
  function Fire(cfg: Config, m: Monitor, id: nat, now: int): (o: Outcome<()>)
    requires MovesForward(cfg)
    requires id in m.timers ==> m.timers[id] in cfg.actionNames
    ensures id !in m.timers ==> o == Outcome(m, Success(()))
    ensures m.nextTimerId <= o.m.nextTimerId
    ensures id < m.nextTimerId ==> id !in o.m.timers
  {
    if id in m.timers then Execute(cfg, m.(timers := m.timers - {id}), m.timers[id], false, now)
    else Outcome(m, Success(()))
  }

  /** `_getChildContext(context)`: the context with `actions` replaced by `childActions`. */
  function ChildContext(context: Record): (r: Record)
    ensures r.Keys == context.Keys + {"actions"}
    ensures r["actions"] == Get(context, "childActions")
    ensures forall k :: k in context && k != "actions" ==> r[k] == context[k]
  {
    context["actions" := Get(context, "childActions")]
  }
}
