/**
 * The dispatcher returned by `configureDispatcher(context)(dispatch, getState)`
 * as an object that updates its state in place. Every method performs the
 * steps of its JavaScript counterpart and is proved to agree with the
 * function of the same name in module `Dispatcher`, where the properties are
 * stated and proved.
 */
module IdleMonitors {
  import opened Wrappers
  import opened JsValues
  import opened Dispatcher

  class IdleMonitor {
    const cfg: Config
    /** `fastState` */
    var fast: Record
    /** The `localStorage` entries the dispatcher writes. */
    var local: map<string, Value>
    /** The library's slice of the redux state, as `getLibState()` returns it. */
    var lib: Record
    /** The pending `setTimeout` timers: id to the state they execute. */
    var timers: map<nat, string>
    var nextTimerId: nat
    /** Whether `onActivity` is attached to the `activeEvents`. */
    var listening: bool
    /** Dispatched actions and invoked user actions, in order. */
    var trace: seq<Effect>

    function Snapshot(): Monitor
      reads this
    {
      Monitor(fast, local, lib, timers, nextTimerId, listening, trace)
    }

    constructor (cfg: Config, lib: Record, now: int)
      ensures this.cfg == cfg
      ensures Snapshot() == Create(cfg, lib, now)
    {
      this.cfg := cfg;
      fast := if cfg.useFastStore then InitialFastState(cfg, now) else map[];
      local := map[];
      this.lib := lib;
      timers := map[];
      nextTimerId := 1;
      listening := false;
      trace := [];
      new;
      if cfg.useLocalStore {
        local := local[cfg.activityKey := Obj(map["lastActive" := Num(now)])];
      }
    }

    /** `setLocalState(newState)`: the patch keys that are local keys are just `lastActive`. */
    method SetLocalState(p: Record, now: int)
      modifies this
      ensures Snapshot() == old(Snapshot()).(local := Dispatcher.SetLocalState(cfg, old(local), p, now))
    {
      local := local[LocalKey(cfg, "lastActive") := Num(now)];
      if "lastActive" in p {
        local := local[LocalKey(cfg, "lastActive") := p["lastActive"]];
      }
    }

    /** `stores.setState(actionName, newState)` */
    method SetState(actionName: string, p: Record, now: int)
      modifies this
      ensures Snapshot() == Dispatcher.SetState(cfg, old(Snapshot()), actionName, p, now)
    {
      if Truthy(Fn("_shouldSetLocalState")) {
        SetLocalState(p, now);
      }
      var bypass := false;
      if cfg.useFastStore && ShouldSetState(FastStateKeys, p) {
        fast := Dispatcher.SetFastState(fast, p, now);
        bypass := !ShouldSetState(ReduxStateKeys, p);
      }
      if !bypass {
        lib := lib + p;
        trace := trace + [Dispatched(StateAction(actionName, p))];
      }
    }

    /** `onActivity(e)` */
    method OnActivity(e: Event, now: int) returns (r: Result<(), string>)
      modifies this
      ensures Snapshot() == Dispatcher.OnActivity(cfg, old(Snapshot()), e, now).m
      ensures r == Dispatcher.OnActivity(cfg, old(Snapshot()), e, now).r
    {
      var qualifies := ShouldActivityUpdate(cfg, Snapshot(), e, now);
      if qualifies.Failure? {
        return Failure(qualifies.error);
      }
      if !qualifies.value {
        return Success(());
      }
      if ReduxRead(cfg, Snapshot(), "actionName") != Str(cfg.initialActionName) {
        trace := trace + [StartDispatched];
        return Success(());
      }
      SetState(cfg.activityKey, ActivityPatch(e, now), now);
      r := Success(());
    }

    /** `detection.start()` */
    method Start(now: int) returns (r: Result<(), string>)
      modifies this
      ensures Snapshot() == Dispatcher.Start(cfg, old(Snapshot()), now).m
      ensures r == Dispatcher.Start(cfg, old(Snapshot()), now).r
    {
      if !cfg.production && FastRead(cfg, Snapshot(), "isDetectionRunning") != Bool(false) {
        return Failure("activity detection is already running");
      }
      listening := true;
      SetState(cfg.activityKey, map["isDetectionRunning" := Bool(true)], now);
      r := Success(());
    }

    /** `detection.stop()` */
    method Stop(now: int) returns (r: Result<(), string>)
      modifies this
      ensures Snapshot() == Dispatcher.Stop(cfg, old(Snapshot()), now).m
      ensures r == Dispatcher.Stop(cfg, old(Snapshot()), now).r
    {
      if !cfg.production && FastRead(cfg, Snapshot(), "isDetectionRunning") != Bool(true) {
        return Failure("activity detection is not running");
      }
      listening := false;
      SetState(cfg.activityKey, map["isDetectionRunning" := Bool(false)], now);
      r := Success(());
    }

    /** `timeout.clear()` */
    method Clear()
      modifies this
      ensures Snapshot() == Dispatcher.Clear(cfg, old(Snapshot()))
    {
      var id := FastRead(cfg, Snapshot(), "timeoutID");
      if id.Num? && id.n >= 0 {
        timers := timers - {id.n as nat};
      }
    }

    /** `schedule(actionName)` */
    method Schedule(actionName: string, now: int) returns (r: Result<Value, string>)
      requires MovesForward(cfg) && actionName in cfg.actionNames
      modifies this
      ensures Snapshot() == Dispatcher.Schedule(cfg, old(Snapshot()), actionName, now).m
      ensures r == Dispatcher.Schedule(cfg, old(Snapshot()), actionName, now).r
      decreases |cfg.actionNames| - IndexOf(cfg.actionNames, actionName), 1
    {
      Clear();
      var timeoutMS := ResolveTimeout(cfg, Snapshot(), actionName);
      var isPaused := IsPauseTriggered(timeoutMS);
      if Positive(timeoutMS) {
        r := Success(Num(nextTimerId));
        timers := timers[nextTimerId := actionName];
        nextTimerId := nextTimerId + 1;
        return;
      }
      var e := Execute(actionName, isPaused, now);
      r := if e.Success? then Success(Undefined) else Failure(e.error);
    }

    /** `execute({ actionName, isPaused })` */
    method Execute(actionName: string, isPaused: bool, now: int) returns (r: Result<(), string>)
      requires MovesForward(cfg) && actionName in cfg.actionNames
      modifies this
      ensures Snapshot() == Dispatcher.Execute(cfg, old(Snapshot()), actionName, isPaused, now).m
      ensures r == Dispatcher.Execute(cfg, old(Snapshot()), actionName, isPaused, now).r
      decreases |cfg.actionNames| - IndexOf(cfg.actionNames, actionName), 0
    {
      ghost var m0 := Snapshot();
      var next := cfg.nextOf(actionName);
      var wasPaused := Truthy(ReduxRead(cfg, Snapshot(), "isPaused"));
      var timeoutID: Value := Null;
      if SchedulesNext(next, isPaused) {
        var s := Schedule(next.value, now);
        if s.Failure? {
          return Failure(s.error);
        }
        timeoutID := s.value;
      }
      ghost var scheduled := Outcome(Snapshot(), Success(timeoutID));
      assert Dispatcher.Execute(cfg, m0, actionName, isPaused, now)
          == Finish(cfg, scheduled, actionName, next, isPaused, wasPaused, now);
      if isPaused && !wasPaused {
        var d := Stop(now);
        if d.Failure? {
          return Failure(d.error);
        }
      }
      if !isPaused && wasPaused {
        var d := Start(now);
        if d.Failure? {
          return Failure(d.error);
        }
      }
      SetState(actionName, ExecutePatch(actionName, next, isPaused, timeoutID), now);
      // the user action of the state runs last, with the child context
      trace := trace + [Invoked(actionName)];
      r := Success(());
    }

    /** A pending timer going off. */
    method Fire(id: nat, now: int) returns (r: Result<(), string>)
      requires MovesForward(cfg)
      requires id in timers ==> timers[id] in cfg.actionNames
      modifies this
      ensures Snapshot() == Dispatcher.Fire(cfg, old(Snapshot()), id, now).m
      ensures r == Dispatcher.Fire(cfg, old(Snapshot()), id, now).r
    {
      if id !in timers {
        return Success(());
      }
      var actionName := timers[id];
      timers := timers - {id};
      r := Execute(actionName, false, now);
    }
  }
}
