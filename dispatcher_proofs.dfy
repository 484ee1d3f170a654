/** Properties of the dispatcher model in `dispatcher.dfy`. */
module DispatcherProofs {
  import opened Wrappers
  import opened JsValues
  import opened Dispatcher
  import Stores

  // ------------------------------------------------------------- state writes

  lemma OverlaysUnique(r1: Record, r2: Record, base: Record, top: Record)
    requires Overlays(r1, base, top) && Overlays(r2, base, top)
    ensures r1 == r2
  {
    forall k | k in r1 ensures r1[k] == r2[k] {
      if k !in top {
        assert k in base;
      }
    }
  }

  /**
   * The redux write of `setState` is what the library's merging reducer makes of
   * the dispatched action, for a reducer subscribed to that action's type.
   */
  lemma LibFollowsMergingReducer(cfg: Config, m: Monitor, actionName: string, p: Record, now: int, subscribeTypes: seq<string>)
    requires actionName in subscribeTypes
    ensures SetState(cfg, m, actionName, p, now).lib
         == Stores.MergingReducer(subscribeTypes, Obj(m.lib), StateAction(actionName, p)).fields
  {
    var reduced := Stores.MergingReducer(subscribeTypes, Obj(m.lib), StateAction(actionName, p));
    assert OwnProps(Obj(m.lib)) == m.lib && OwnProps(StateAction(actionName, p).payload) == p;
    OverlaysUnique(SetState(cfg, m, actionName, p, now).lib, reduced.fields, m.lib, p);
  }

  /** Non-fast keys of a patch never enter the fast state. */
  lemma FastStateKeepsItsKeys(cfg: Config, m: Monitor, actionName: string, p: Record, now: int)
    requires m.fast.Keys <= FastStateKeys
    ensures SetState(cfg, m, actionName, p, now).fast.Keys <= FastStateKeys
  {
  }

  // ------------------------------------------------------------ activity filter

  /**
   * With every coordinate, timestamp and threshold a number, a mouse move
   * qualifies exactly when it moved at least `mouse` pixels along some axis and
   * at least `elapsedMS` passed since the last activity.
   */
  lemma MouseMoveQualifies(cfg: Config, m: Monitor, e: Event, now: int)
    requires e.eventType == "mousemove"
    requires FastRead(cfg, m, "lastEvent").Obj?
    requires ToNumber(e.pageX).Some? && ToNumber(e.pageY).Some? && e.pageX != Undefined && e.pageY != Undefined
    requires ToNumber(Member(FastRead(cfg, m, "lastEvent"), "x")).Some?
    requires ToNumber(Member(FastRead(cfg, m, "lastEvent"), "y")).Some?
    requires ToNumber(FastRead(cfg, m, "lastActive")).Some?
    requires ToNumber(cfg.mouseThreshold).Some? && ToNumber(cfg.elapsedThreshold).Some?
    ensures
      var dx := ToNumber(e.pageX).value - ToNumber(Member(FastRead(cfg, m, "lastEvent"), "x")).value;
      var dy := ToNumber(e.pageY).value - ToNumber(Member(FastRead(cfg, m, "lastEvent"), "y")).value;
      var mouse := ToNumber(cfg.mouseThreshold).value;
      ShouldActivityUpdate(cfg, m, e, now) == Success(
        && (dx >= mouse || -dx >= mouse || dy >= mouse || -dy >= mouse)
        && now - ToNumber(FastRead(cfg, m, "lastActive")).value >= ToNumber(cfg.elapsedThreshold).value)
  {
  }

  /** A mouse move without both coordinates never qualifies; one with a NaN threshold is not held back by it. */
  lemma MouseMoveEdgeCases(cfg: Config, m: Monitor, e: Event, now: int)
    requires e.eventType == "mousemove"
    requires !FastRead(cfg, m, "lastEvent").Undefined? && !FastRead(cfg, m, "lastEvent").Null?
    ensures e.pageX == Undefined || e.pageY == Undefined ==> ShouldActivityUpdate(cfg, m, e, now) == Success(false)
    ensures (e.pageX != Undefined && e.pageY != Undefined && ToNumber(cfg.mouseThreshold).None?
             && ToNumber(cfg.elapsedThreshold).None?) ==> ShouldActivityUpdate(cfg, m, e, now) == Success(true)
  {
  }

  // ----------------------------------------------------------- well-formedness

  /**
   * With a fast store: the fast state has exactly the four fast fields, and
   * the listeners are attached exactly when it records detection as running.
   */
  ghost predicate FastWellFormed(cfg: Config, m: Monitor) {
    cfg.useFastStore ==>
      && m.fast.Keys == FastStateKeys
      && (m.listening <==> m.fast["isDetectionRunning"] == Bool(true))
  }

  lemma CreateWellFormed(cfg: Config, lib: Record, now: int)
    ensures FastWellFormed(cfg, Create(cfg, lib, now))
  {
    var m := Create(cfg, lib, now);
    if cfg.useFastStore {
      assert m.fast["isDetectionRunning"] == Bool(false);
    }
  }

  /** A state write that does not touch `isDetectionRunning` keeps the dispatcher well formed. */
  lemma SetStateWellFormed(cfg: Config, m: Monitor, actionName: string, p: Record, now: int)
    requires FastWellFormed(cfg, m) && "isDetectionRunning" !in p
    ensures FastWellFormed(cfg, SetState(cfg, m, actionName, p, now))
  {
    var r := SetState(cfg, m, actionName, p, now);
    if cfg.useFastStore && ShouldSetState(FastStateKeys, p) {
      assert r.fast["isDetectionRunning"] == m.fast["isDetectionRunning"];
    }
  }

  lemma StartWellFormed(cfg: Config, m: Monitor, now: int)
    requires FastWellFormed(cfg, m)
    ensures FastWellFormed(cfg, Start(cfg, m, now).m)
  {
    var p := map["isDetectionRunning" := Bool(true)];
    if Start(cfg, m, now).r.Success? && cfg.useFastStore {
      assert "isDetectionRunning" in p && p["isDetectionRunning"] != Undefined;
      assert Start(cfg, m, now).m.fast["isDetectionRunning"] == Bool(true);
    }
  }

  lemma StopWellFormed(cfg: Config, m: Monitor, now: int)
    requires FastWellFormed(cfg, m)
    ensures FastWellFormed(cfg, Stop(cfg, m, now).m)
  {
    var p := map["isDetectionRunning" := Bool(false)];
    if Stop(cfg, m, now).r.Success? && cfg.useFastStore {
      assert "isDetectionRunning" in p && p["isDetectionRunning"] != Undefined;
      assert Stop(cfg, m, now).m.fast["isDetectionRunning"] == Bool(false);
    }
  }

  lemma OnActivityWellFormed(cfg: Config, m: Monitor, e: Event, now: int)
    requires FastWellFormed(cfg, m)
    ensures FastWellFormed(cfg, OnActivity(cfg, m, e, now).m)
  {
    if ShouldActivityUpdate(cfg, m, e, now) == Success(true) && ReduxRead(cfg, m, "actionName") == Str(cfg.initialActionName) {
      SetStateWellFormed(cfg, m, cfg.activityKey, ActivityPatch(e, now), now);
    }
  }

  lemma ClearWellFormed(cfg: Config, m: Monitor)
    requires FastWellFormed(cfg, m)
    ensures FastWellFormed(cfg, Clear(cfg, m))
  {
  }

  lemma {:induction false} ScheduleWellFormed(cfg: Config, m: Monitor, actionName: string, now: int)
    requires MovesForward(cfg) && actionName in cfg.actionNames
    requires FastWellFormed(cfg, m)
    ensures FastWellFormed(cfg, Schedule(cfg, m, actionName, now).m)
    decreases |cfg.actionNames| - IndexOf(cfg.actionNames, actionName), 1
  {
    var cleared := Clear(cfg, m);
    ClearWellFormed(cfg, m);
    var timeoutMS := ResolveTimeout(cfg, cleared, actionName);
    if !Positive(timeoutMS) {
      ExecuteWellFormed(cfg, cleared, actionName, IsPauseTriggered(timeoutMS), now);
    }
  }

  lemma FinishWellFormed(cfg: Config, s: Outcome<Value>, actionName: string, next: Option<string>,
                         isPaused: bool, wasPaused: bool, now: int)
    requires FastWellFormed(cfg, s.m)
    ensures FastWellFormed(cfg, Finish(cfg, s, actionName, next, isPaused, wasPaused, now).m)
  {
    if s.r.Success? {
      var d := PauseEdge(cfg, s.m, isPaused, wasPaused, now);
      if isPaused && !wasPaused {
        StopWellFormed(cfg, s.m, now);
      } else if !isPaused && wasPaused {
        StartWellFormed(cfg, s.m, now);
      }
      if d.r.Success? {
        SetStateWellFormed(cfg, d.m, actionName, ExecutePatch(actionName, next, isPaused, s.r.value), now);
      }
    }
  }

  lemma {:induction false} ExecuteWellFormed(cfg: Config, m: Monitor, actionName: string, isPaused: bool, now: int)
    requires MovesForward(cfg) && actionName in cfg.actionNames
    requires FastWellFormed(cfg, m)
    ensures FastWellFormed(cfg, Execute(cfg, m, actionName, isPaused, now).m)
    decreases |cfg.actionNames| - IndexOf(cfg.actionNames, actionName), 0
  {
    var next := cfg.nextOf(actionName);
    var s := if SchedulesNext(next, isPaused) then Schedule(cfg, m, next.value, now) else Outcome(m, Success(Null));
    if SchedulesNext(next, isPaused) {
      ScheduleWellFormed(cfg, m, next.value, now);
    }
    FinishWellFormed(cfg, s, actionName, next, isPaused, Truthy(ReduxRead(cfg, m, "isPaused")), now);
  }

  lemma FireWellFormed(cfg: Config, m: Monitor, id: nat, now: int)
    requires MovesForward(cfg)
    requires id in m.timers ==> m.timers[id] in cfg.actionNames
    requires FastWellFormed(cfg, m)
    ensures FastWellFormed(cfg, Fire(cfg, m, id, now).m)
  {
    if id in m.timers {
      ExecuteWellFormed(cfg, m.(timers := m.timers - {id}), m.timers[id], false, now);
    }
  }

  // ------------------------------------------------------------- timer tracking

  /** With a fast store, every pending timer is the one whose id the fast state holds. */
  ghost predicate TimerTracked(cfg: Config, m: Monitor) {
    cfg.useFastStore ==> forall id :: id in m.timers ==> Get(m.fast, "timeoutID") == Num(id)
  }

  /** Hence at most one timer is ever pending. */
  lemma TrackedTimerIsUnique(cfg: Config, m: Monitor)
    requires cfg.useFastStore && TimerTracked(cfg, m)
    ensures |m.timers.Keys| <= 1
  {
    if id :| id in m.timers {
      forall other | other in m.timers ensures other == id {
        assert Num(other) == Get(m.fast, "timeoutID") == Num(id);
      }
      assert m.timers.Keys == {id};
    }
  }

  /** A state write that leaves `timeoutID` alone keeps pending timers tracked. */
  lemma SetStateKeepsTimeoutID(cfg: Config, m: Monitor, actionName: string, p: Record, now: int)
    requires "timeoutID" !in p || !ShouldSetState(FastStateKeys, p)
    ensures Get(SetState(cfg, m, actionName, p, now).fast, "timeoutID") == Get(m.fast, "timeoutID")
  {
  }

  /**
   * `schedule` on a tracked dispatcher: a new timer is then the only one
   * pending, and an immediate execution leaves the timers tracked.
   */
  lemma {:induction false} ScheduleTracksTimer(cfg: Config, m: Monitor, actionName: string, now: int)
    requires MovesForward(cfg) && actionName in cfg.actionNames
    requires cfg.useFastStore && TimerTracked(cfg, m)
    ensures var o := Schedule(cfg, m, actionName, now);
      o.r.Success? && o.r.value.Num? ==> o.r.value.n >= 0 && o.m.timers == map[o.r.value.n as nat := actionName]
    ensures var o := Schedule(cfg, m, actionName, now);
      o.r.Success? && !o.r.value.Num? ==> o.r.value == Undefined && TimerTracked(cfg, o.m)
    decreases |cfg.actionNames| - IndexOf(cfg.actionNames, actionName), 1
  {
    var cleared := Clear(cfg, m);
    assert cleared.timers == map[] by {
      forall id | id in m.timers ensures id !in cleared.timers {
        assert FastRead(cfg, m, "timeoutID") == Num(id);
      }
    }
    var timeoutMS := ResolveTimeout(cfg, cleared, actionName);
    if !Positive(timeoutMS) {
      ExecuteTracksTimer(cfg, cleared, actionName, IsPauseTriggered(timeoutMS), now);
    }
  }

  /** What scheduling hands to the rest of `execute`, on a tracked dispatcher with a fast store. */
  ghost predicate ScheduledTracked(cfg: Config, s: Outcome<Value>) {
    s.r.Success? ==>
      || (s.r.value.Num? && s.r.value.n >= 0 && s.m.timers.Keys == {s.r.value.n as nat})
      || (s.r.value == Undefined && TimerTracked(cfg, s.m))
      || (s.r.value == Null && s.m.timers == map[])
  }

  /** Flipping detection touches neither the timers nor the stored timer id. */
  lemma PauseEdgeKeepsTimers(cfg: Config, m: Monitor, isPaused: bool, wasPaused: bool, now: int)
    ensures PauseEdge(cfg, m, isPaused, wasPaused, now).m.timers == m.timers
    ensures Get(PauseEdge(cfg, m, isPaused, wasPaused, now).m.fast, "timeoutID") == Get(m.fast, "timeoutID")
  {
    if isPaused && !wasPaused {
      SetStateKeepsTimeoutID(cfg, m.(listening := false), cfg.activityKey, map["isDetectionRunning" := Bool(false)], now);
    } else if !isPaused && wasPaused {
      SetStateKeepsTimeoutID(cfg, m.(listening := true), cfg.activityKey, map["isDetectionRunning" := Bool(true)], now);
    }
  }

  /** The state write of `execute` records a new timer's id in the fast state. */
  lemma ExecuteWriteRecordsTimer(cfg: Config, d: Monitor, actionName: string, next: Option<string>,
                                 isPaused: bool, id: nat, now: int)
    requires cfg.useFastStore && d.timers.Keys == {id}
    ensures TimerTracked(cfg, SetState(cfg, d, actionName, ExecutePatch(actionName, next, isPaused, Num(id)), now))
  {
    var p := ExecutePatch(actionName, next, isPaused, Num(id));
    assert "timeoutID" in p && p["timeoutID"] == Num(id);
    var w := SetState(cfg, d, actionName, p, now);
    assert w.fast == SetFastState(d.fast, p, now);
    assert Get(w.fast, "timeoutID") == Num(id);
  }

  /** The write of `timeoutID: undefined` leaves the fast state alone. */
  lemma ExecuteWriteKeepsTimer(cfg: Config, d: Monitor, actionName: string, next: Option<string>,
                               isPaused: bool, now: int)
    requires cfg.useFastStore && TimerTracked(cfg, d)
    ensures TimerTracked(cfg, SetState(cfg, d, actionName, ExecutePatch(actionName, next, isPaused, Undefined), now))
  {
    var p := ExecutePatch(actionName, next, isPaused, Undefined);
    assert !ShouldSetState(FastStateKeys, p);
  }

  /** The state write of `execute` records a new timer's id and keeps an old one. */
  lemma ExecuteWriteTracksTimer(cfg: Config, d: Monitor, actionName: string, next: Option<string>,
                                isPaused: bool, timeoutID: Value, now: int)
    requires cfg.useFastStore
    requires || (timeoutID.Num? && timeoutID.n >= 0 && d.timers.Keys == {timeoutID.n as nat})
             || (timeoutID == Undefined && TimerTracked(cfg, d))
             || (timeoutID == Null && d.timers == map[])
    ensures TimerTracked(cfg, SetState(cfg, d, actionName, ExecutePatch(actionName, next, isPaused, timeoutID), now))
  {
    if timeoutID.Num? {
      ExecuteWriteRecordsTimer(cfg, d, actionName, next, isPaused, timeoutID.n as nat, now);
    } else if timeoutID == Undefined {
      ExecuteWriteKeepsTimer(cfg, d, actionName, next, isPaused, now);
    }
  }

  lemma FinishTracksTimer(cfg: Config, s: Outcome<Value>, actionName: string, next: Option<string>,
                          isPaused: bool, wasPaused: bool, now: int)
    requires cfg.useFastStore && ScheduledTracked(cfg, s)
    ensures var o := Finish(cfg, s, actionName, next, isPaused, wasPaused, now);
      o.r.Success? ==> TimerTracked(cfg, o.m)
  {
    if s.r.Success? {
      var d := PauseEdge(cfg, s.m, isPaused, wasPaused, now);
      PauseEdgeKeepsTimers(cfg, s.m, isPaused, wasPaused, now);
      if d.r.Success? {
        ExecuteWriteTracksTimer(cfg, d.m, actionName, next, isPaused, s.r.value, now);
      }
    }
  }

  /** `execute` with no timer pending leaves every timer it creates tracked. */
  lemma {:induction false} ExecuteTracksTimer(cfg: Config, m: Monitor, actionName: string, isPaused: bool, now: int)
    requires MovesForward(cfg) && actionName in cfg.actionNames
    requires cfg.useFastStore && m.timers == map[]
    ensures var o := Execute(cfg, m, actionName, isPaused, now);
      o.r.Success? ==> TimerTracked(cfg, o.m)
    decreases |cfg.actionNames| - IndexOf(cfg.actionNames, actionName), 0
  {
    var next := cfg.nextOf(actionName);
    var s := if SchedulesNext(next, isPaused) then Schedule(cfg, m, next.value, now) else Outcome(m, Success(Null));
    if SchedulesNext(next, isPaused) {
      ScheduleTracksTimer(cfg, m, next.value, now);
    }
    assert ScheduledTracked(cfg, s);
    FinishTracksTimer(cfg, s, actionName, next, isPaused, Truthy(ReduxRead(cfg, m, "isPaused")), now);
  }

  /** A timer going off on a tracked dispatcher leaves the dispatcher tracked. */
  lemma FireTracksTimer(cfg: Config, m: Monitor, id: nat, now: int)
    requires MovesForward(cfg)
    requires id in m.timers ==> m.timers[id] in cfg.actionNames
    requires cfg.useFastStore && TimerTracked(cfg, m)
    ensures Fire(cfg, m, id, now).r.Success? ==> TimerTracked(cfg, Fire(cfg, m, id, now).m)
  {
    if id in m.timers {
      var rest := m.(timers := m.timers - {id});
      assert rest.timers == map[] by {
        forall other | other in m.timers ensures other == id {
          assert Num(other) == Get(m.fast, "timeoutID") == Num(id);
        }
      }
      ExecuteTracksTimer(cfg, rest, m.timers[id], false, now);
    }
  }

  // ---------------------------------------------------------- effect ordering

  /** `schedule` and `execute` only append to the trace. */
  lemma {:induction false} ScheduleExtendsTrace(cfg: Config, m: Monitor, actionName: string, now: int)
    requires MovesForward(cfg) && actionName in cfg.actionNames
    ensures m.trace <= Schedule(cfg, m, actionName, now).m.trace
    decreases |cfg.actionNames| - IndexOf(cfg.actionNames, actionName), 1
  {
    var cleared := Clear(cfg, m);
    var timeoutMS := ResolveTimeout(cfg, cleared, actionName);
    if !Positive(timeoutMS) {
      ExecuteExtendsTrace(cfg, cleared, actionName, IsPauseTriggered(timeoutMS), now);
    }
  }

  lemma FinishExtendsTrace(cfg: Config, s: Outcome<Value>, actionName: string, next: Option<string>,
                           isPaused: bool, wasPaused: bool, now: int)
    ensures s.m.trace <= Finish(cfg, s, actionName, next, isPaused, wasPaused, now).m.trace
  {
  }

  lemma {:induction false} ExecuteExtendsTrace(cfg: Config, m: Monitor, actionName: string, isPaused: bool, now: int)
    requires MovesForward(cfg) && actionName in cfg.actionNames
    ensures m.trace <= Execute(cfg, m, actionName, isPaused, now).m.trace
    decreases |cfg.actionNames| - IndexOf(cfg.actionNames, actionName), 0
  {
    var next := cfg.nextOf(actionName);
    var s := if SchedulesNext(next, isPaused) then Schedule(cfg, m, next.value, now) else Outcome(m, Success(Null));
    if SchedulesNext(next, isPaused) {
      ScheduleExtendsTrace(cfg, m, next.value, now);
    }
    FinishExtendsTrace(cfg, s, actionName, next, isPaused, Truthy(ReduxRead(cfg, m, "isPaused")), now);
  }

  /** No delay that pauses schedules a timer. */
  lemma PauseDelays(t: Value)
    ensures IsPauseTriggered(t) ==> !Positive(t)
  {
  }

  /**
   * After scheduling, `execute` flips detection exactly on a pause edge and
   * ends by dispatching its state write and then invoking the user action.
   */
  lemma FinishEffects(cfg: Config, s: Outcome<Value>, actionName: string, next: Option<string>,
                      isPaused: bool, wasPaused: bool, now: int)
    ensures var o := Finish(cfg, s, actionName, next, isPaused, wasPaused, now);
      o.r.Success? ==>
        && s.r.Success?
        && |o.m.trace| >= 2
        && o.m.trace[|o.m.trace| - 2..] == [Dispatched(StateAction(actionName, ExecutePatch(actionName, next, isPaused, s.r.value))),
                                            Invoked(actionName)]
        && o.m.lib["actionName"] == Str(actionName)
        && o.m.lib["isIdle"] == Bool(next.None?)
        && o.m.lib["isPaused"] == Bool(isPaused)
        && o.m.lib["timeoutID"] == s.r.value
        && (isPaused && !wasPaused ==> !o.m.listening)
        && (!isPaused && wasPaused ==> o.m.listening)
        && (isPaused == wasPaused ==> o.m.listening == s.m.listening)
        && o.m.timers == s.m.timers
  {
    var o := Finish(cfg, s, actionName, next, isPaused, wasPaused, now);
    if o.r.Success? {
      var d := PauseEdge(cfg, s.m, isPaused, wasPaused, now);
      var p := ExecutePatch(actionName, next, isPaused, s.r.value);
      var w := SetState(cfg, d.m, actionName, p, now);
      assert o.m.trace == d.m.trace + [Dispatched(StateAction(actionName, p)), Invoked(actionName)];
      assert "actionName" in p && "isIdle" in p && "isPaused" in p && "timeoutID" in p;
    }
  }

  /**
   * A successful `execute` reads `wasPaused` before writing anything, stores
   * `timeoutID` as `null` when it schedules nothing, as the new timer's id when
   * it sets one and as `undefined` when the next state ran at once, flips
   * detection exactly on a pause edge, and ends by dispatching its state write and
   * then invoking the user action.
   */
  lemma ExecuteEffects(cfg: Config, m: Monitor, actionName: string, isPaused: bool, now: int)
    requires MovesForward(cfg) && actionName in cfg.actionNames
    ensures var o := Execute(cfg, m, actionName, isPaused, now);
      var next := cfg.nextOf(actionName);
      var wasPaused := Truthy(Get(m.lib, "isPaused"));
      var timeoutID :=
        if !SchedulesNext(next, isPaused) then Null
        else if Positive(ResolveTimeout(cfg, Clear(cfg, m), next.value)) then Num(Clear(cfg, m).nextTimerId)
        else Undefined;
      o.r.Success? ==>
        && |o.m.trace| >= 2
        && o.m.trace[|o.m.trace| - 2..] == [Dispatched(StateAction(actionName, ExecutePatch(actionName, next, isPaused, timeoutID))),
                                            Invoked(actionName)]
        && o.m.lib["timeoutID"] == timeoutID
        && (isPaused && !wasPaused ==> !o.m.listening)
        && (!isPaused && wasPaused ==> o.m.listening)
        && (isPaused ==> o.m.timers == m.timers)
  {
    var next := cfg.nextOf(actionName);
    var s := if SchedulesNext(next, isPaused) then Schedule(cfg, m, next.value, now) else Outcome(m, Success(Null));
    FinishEffects(cfg, s, actionName, next, isPaused, Truthy(ReduxRead(cfg, m, "isPaused")), now);
  }

  // ------------------------------------------------------------------ a chain

  /** What a state write leaves under one key of its patch, in the lib slice and, with a fast store, in the fast state. */
  lemma WrittenField(cfg: Config, m: Monitor, actionName: string, p: Record, now: int, k: string)
    requires k in p
    ensures Get(SetState(cfg, m, actionName, p, now).lib, k) == p[k]
    ensures cfg.useFastStore && k in FastStateKeys && k != "lastActive" && p[k] != Undefined ==>
      Get(SetState(cfg, m, actionName, p, now).fast, k) == p[k]
  {
    if cfg.useFastStore && k in FastStateKeys && k != "lastActive" && p[k] != Undefined {
      assert ShouldSetState(FastStateKeys, p);
    }
  }

  function ChainNext(s: string): Option<string> {
    if s == "a" then Some("b") else if s == "b" then Some("c") else None
  }

  function ChainTimeout(v: Value): Timeout {
    if v == Str("c") then Literal(Num(5)) else Literal(Num(0))
  }

  function ChainConfig(useFastStore: bool): Config {
    Config(useFastStore, false, true, "IDLEMONITOR_ACTIVITY", ["a", "b", "c"], "a", Null, Num(20), Num(1000),
           ChainNext, ChainTimeout)
  }

  lemma ChainMovesForward(useFastStore: bool)
    ensures MovesForward(ChainConfig(useFastStore))
  {
    var cfg := ChainConfig(useFastStore);
    assert IndexOf(cfg.actionNames, "a") == 0;
    assert IndexOf(cfg.actionNames, "b") == 1;
    assert IndexOf(cfg.actionNames, "c") == 2;
  }

  function PatchB(): Record { ExecutePatch("b", Some("c"), false, Num(1)) }
  function PatchA(): Record { ExecutePatch("a", Some("b"), false, Undefined) }

  /** `execute("b")`: `c` gets timer 1, then `b` is written and invoked. */
  lemma ChainExecuteB(useFastStore: bool, m: Monitor, now: int)
    requires MovesForward(ChainConfig(useFastStore))
    requires m.timers == map[] && m.nextTimerId == 1 && !Truthy(Get(m.lib, "isPaused"))
    requires FastRead(ChainConfig(useFastStore), m, "timeoutID") == Undefined
    ensures var o := Execute(ChainConfig(useFastStore), m, "b", false, now);
      && o.r.Success?
      && o.m.timers == map[1 := "c"]
      && o.m.trace == m.trace + [Dispatched(StateAction("b", PatchB())), Invoked("b")]
      && (useFastStore ==> Get(o.m.fast, "timeoutID") == Num(1))
  {
    var cfg := ChainConfig(useFastStore);
    assert IndexOf(cfg.actionNames, "c") == 2;
    assert Clear(cfg, m) == m;
    assert ResolveTimeout(cfg, m, "c") == Num(5);
    var sc := Schedule(cfg, m, "c", now);
    assert sc == Outcome(m.(timers := map[1 := "c"], nextTimerId := 2), Success(Num(1)));
    assert Execute(cfg, m, "b", false, now) == Finish(cfg, sc, "b", Some("c"), false, false, now);
    assert PauseEdge(cfg, sc.m, false, false, now) == Outcome(sc.m, Success(()));
    var w := SetState(cfg, sc.m, "b", PatchB(), now);
    assert Finish(cfg, sc, "b", Some("c"), false, false, now) == Outcome(w.(trace := w.trace + [Invoked("b")]), Success(()));
    WrittenField(cfg, sc.m, "b", PatchB(), now, "timeoutID");
  }

  /** `schedule("b")`: delay 0, so `b` runs at once and no id is returned. */
  lemma ChainScheduleB(useFastStore: bool, m: Monitor, now: int)
    requires MovesForward(ChainConfig(useFastStore))
    requires FastRead(ChainConfig(useFastStore), m, "timeoutID") == Undefined
    ensures var cfg := ChainConfig(useFastStore);
      var eb := Execute(cfg, m, "b", false, now);
      Schedule(cfg, m, "b", now) == Outcome(eb.m, if eb.r.Success? then Success(Undefined) else Failure(eb.r.error))
  {
    var cfg := ChainConfig(useFastStore);
    assert Clear(cfg, m) == m;
    assert ResolveTimeout(cfg, m, "b") == Num(0);
  }

  /**
   * States `a`, `b`, `c` where `b` has delay 0 and `c` delay 5: executing `a`
   * runs `b` at once, which sets a timer for `c`. The writes and user actions
   * happen innermost first, and `a`'s write then stores `timeoutID: undefined`.
   * With the fast store that write does not reach the fast state, which keeps
   * the id of the pending timer; without it the redux slice is the only
   * record, and the id of the pending timer is lost.
   */
  lemma ChainExecuteA(useFastStore: bool, m: Monitor, now: int)
    requires MovesForward(ChainConfig(useFastStore))
    requires m.timers == map[] && m.nextTimerId == 1 && !Truthy(Get(m.lib, "isPaused"))
    requires FastRead(ChainConfig(useFastStore), m, "timeoutID") == Undefined
    ensures var cfg := ChainConfig(useFastStore);
      var o := Execute(cfg, m, "a", false, now);
      && o.r.Success?
      && o.m.timers == map[1 := "c"]
      && o.m.trace == m.trace + [Dispatched(StateAction("b", PatchB())), Invoked("b"),
                                 Dispatched(StateAction("a", PatchA())), Invoked("a")]
      && FastRead(cfg, o.m, "timeoutID") == (if useFastStore then Num(1) else Undefined)
  {
    var cfg := ChainConfig(useFastStore);
    ChainExecuteB(useFastStore, m, now);
    ChainScheduleB(useFastStore, m, now);
    var sb := Schedule(cfg, m, "b", now);
    assert Execute(cfg, m, "a", false, now) == Finish(cfg, sb, "a", Some("b"), false, false, now);
    ChainFinishA(useFastStore, sb, m.trace, now);
  }

  /** The end of `execute("a")`, once `b` ran at once. */
  lemma ChainFinishA(useFastStore: bool, s: Outcome<Value>, t: seq<Effect>, now: int)
    requires s.r == Success(Undefined) && s.m.timers == map[1 := "c"]
    requires s.m.trace == t + [Dispatched(StateAction("b", PatchB())), Invoked("b")]
    requires useFastStore ==> Get(s.m.fast, "timeoutID") == Num(1)
    ensures var cfg := ChainConfig(useFastStore);
      var o := Finish(cfg, s, "a", Some("b"), false, false, now);
      && o.r.Success?
      && o.m.timers == map[1 := "c"]
      && o.m.trace == t + [Dispatched(StateAction("b", PatchB())), Invoked("b"),
                           Dispatched(StateAction("a", PatchA())), Invoked("a")]
      && FastRead(cfg, o.m, "timeoutID") == (if useFastStore then Num(1) else Undefined)
  {
    var cfg := ChainConfig(useFastStore);
    assert PauseEdge(cfg, s.m, false, false, now) == Outcome(s.m, Success(()));
    assert "timeoutID" in PatchA();
    if useFastStore {
      assert !ShouldSetState(FastStateKeys, PatchA());
    }
  }

  /** The chain from a freshly created dispatcher. */
  lemma ChainRunsInnermostFirst(useFastStore: bool, lib: Record, now: int)
    requires !Truthy(Get(lib, "isPaused")) && Get(lib, "timeoutID") == Undefined
    ensures MovesForward(ChainConfig(useFastStore))
    ensures var cfg := ChainConfig(useFastStore);
      var o := Execute(cfg, Create(cfg, lib, now), "a", false, now);
      && o.r.Success?
      && o.m.timers == map[1 := "c"]
      && o.m.trace == [Dispatched(StateAction("b", PatchB())), Invoked("b"),
                       Dispatched(StateAction("a", PatchA())), Invoked("a")]
      && FastRead(cfg, o.m, "timeoutID") == (if useFastStore then Num(1) else Undefined)
  {
    ChainMovesForward(useFastStore);
    var cfg := ChainConfig(useFastStore);
    var m := Create(cfg, lib, now);
    assert FastRead(cfg, m, "timeoutID") == Undefined;
    ChainExecuteA(useFastStore, m, now);
  }

  // ---------------------------------------- what the timer table does not keep

  function NoNext(s: string): Option<string> { None }
  function TwinTimeout(v: Value): Timeout { Literal(Num(100)) }

  function TwinConfig(): Config {
    Config(true, false, true, "IDLEMONITOR_ACTIVITY", ["s0", "s1"], "s0", Null, Num(20), Num(1000),
           NoNext, TwinTimeout)
  }

  /**
   * `schedule` returns the id of the timer it sets but does not store it, and
   * `clear` cancels only the stored id: two schedules in a row on a fresh
   * dispatcher leave both timers pending.
   */
  lemma RepeatedScheduleKeepsBothTimers(lib: Record, now: int)
    ensures MovesForward(TwinConfig())
    ensures var cfg := TwinConfig();
      var o0 := Schedule(cfg, Create(cfg, lib, now), "s0", now);
      var o1 := Schedule(cfg, o0.m, "s1", now);
      && o0.r == Success(Num(1)) && o1.r == Success(Num(2))
      && o1.m.timers == map[1 := "s0", 2 := "s1"]
  {
    var cfg := TwinConfig();
    var m := Create(cfg, lib, now);
    assert Clear(cfg, m) == m;
    var o0 := Schedule(cfg, m, "s0", now);
    assert o0.m == m.(timers := map[1 := "s0"], nextTimerId := 2);
    assert Clear(cfg, o0.m) == o0.m;
  }

  function PauseNext(s: string): Option<string> {
    if s == "s0" then Some("s1") else None
  }

  function PauseTimeout(v: Value): Timeout {
    if v == Str("s1") then Literal(Num(100)) else Literal(Num(0))
  }

  function PauseConfig(): Config {
    Config(true, false, true, "IDLEMONITOR_ACTIVITY", ["s0", "s1", "p"], "s0", Null, Num(20), Num(1000),
           PauseNext, PauseTimeout)
  }

  lemma PauseMovesForward()
    ensures MovesForward(PauseConfig())
  {
    var cfg := PauseConfig();
    assert IndexOf(cfg.actionNames, "s0") == 0;
    assert IndexOf(cfg.actionNames, "s1") == 1;
  }

  /** Scheduling `s1` with nothing stored: timer 1, whose id is returned. */
  lemma PauseScheduleS1(m: Monitor, now: int)
    requires MovesForward(PauseConfig())
    requires m.timers == map[] && m.nextTimerId == 1 && Get(m.fast, "timeoutID") == Undefined
    ensures Schedule(PauseConfig(), m, "s1", now) == Outcome(m.(timers := map[1 := "s1"], nextTimerId := 2), Success(Num(1)))
  {
    var cfg := PauseConfig();
    assert Clear(cfg, m) == m;
    assert ResolveTimeout(cfg, m, "s1") == Num(100);
  }

  /** `execute("s0")` with no timer pending: `s1` gets timer 1, and the fast state stores its id. */
  lemma PauseExecuteS0(m: Monitor, now: int)
    requires MovesForward(PauseConfig())
    requires m.timers == map[] && m.nextTimerId == 1 && Get(m.fast, "timeoutID") == Undefined
    requires !Truthy(Get(m.lib, "isPaused"))
    ensures var o := Execute(PauseConfig(), m, "s0", false, now);
      && o.r.Success? && o.m.timers == map[1 := "s1"] && Get(o.m.fast, "timeoutID") == Num(1)
      && Get(o.m.lib, "isPaused") == Bool(false)
  {
    var cfg := PauseConfig();
    assert IndexOf(cfg.actionNames, "s1") == 1;
    PauseScheduleS1(m, now);
    var sc := Schedule(cfg, m, "s1", now);
    assert Execute(cfg, m, "s0", false, now) == Finish(cfg, sc, "s0", Some("s1"), false, false, now);
    assert PauseEdge(cfg, sc.m, false, false, now) == Outcome(sc.m, Success(()));
    var patch := ExecutePatch("s0", Some("s1"), false, Num(1));
    var w := SetState(cfg, sc.m, "s0", patch, now);
    assert Finish(cfg, sc, "s0", Some("s1"), false, false, now) == Outcome(w.(trace := w.trace + [Invoked("s0")]), Success(()));
    WrittenField(cfg, sc.m, "s0", patch, now, "timeoutID");
    WrittenField(cfg, sc.m, "s0", patch, now, "isPaused");
  }

  /**
   * A paused `execute("p")` while timer 1 is pending: detection stops and the
   * fast state stores `timeoutID: null`, so the pending timer can no longer be
   * cleared.
   */
  lemma PausedExecuteLeavesTimer(m: Monitor, now: int)
    requires MovesForward(PauseConfig())
    requires m.timers == map[1 := "s1"] && Get(m.lib, "isPaused") == Bool(false)
    ensures var cfg := PauseConfig();
      var o := Execute(cfg, m, "p", true, now);
      && o.r.Success? && !o.m.listening && o.m.timers == map[1 := "s1"]
      && Get(o.m.fast, "timeoutID") == Null && Get(o.m.lib, "isPaused") == Bool(true)
      && Clear(cfg, o.m) == o.m
  {
    var cfg := PauseConfig();
    var s := Outcome(m, Success(Null));
    assert Execute(cfg, m, "p", true, now) == Finish(cfg, s, "p", None, true, false, now);
    var d := PauseEdge(cfg, m, true, false, now);
    assert d == Stop(cfg, m, now);
    assert d.r.Success? && !d.m.listening && d.m.timers == m.timers;
    var patch := ExecutePatch("p", None, true, Null);
    var w := SetState(cfg, d.m, "p", patch, now);
    assert Finish(cfg, s, "p", None, true, false, now) == Outcome(w.(trace := w.trace + [Invoked("p")]), Success(()));
    WrittenField(cfg, d.m, "p", patch, now, "timeoutID");
    WrittenField(cfg, d.m, "p", patch, now, "isPaused");
  }

  /** Timer 1 going off after that pause: `s1` runs unpaused, which starts detection again. */
  lemma TimerUndoesPause(m: Monitor, now: int)
    requires MovesForward(PauseConfig())
    requires m.timers == map[1 := "s1"] && Get(m.lib, "isPaused") == Bool(true)
    ensures var o := Fire(PauseConfig(), m, 1, now);
      && o.r.Success? && o.m.listening && o.m.timers == map[]
      && Get(o.m.lib, "isPaused") == Bool(false)
  {
    var cfg := PauseConfig();
    var m1 := m.(timers := map[]);
    assert Fire(cfg, m, 1, now) == Execute(cfg, m1, "s1", false, now);
    var s := Outcome(m1, Success(Null));
    assert Execute(cfg, m1, "s1", false, now) == Finish(cfg, s, "s1", None, false, true, now);
    var d := PauseEdge(cfg, m1, false, true, now);
    assert d == Start(cfg, m1, now);
    assert d.r.Success? && d.m.listening && d.m.timers == map[];
    var patch := ExecutePatch("s1", None, false, Null);
    var w := SetState(cfg, d.m, "s1", patch, now);
    assert Finish(cfg, s, "s1", None, false, true, now) == Outcome(w.(trace := w.trace + [Invoked("s1")]), Success(()));
    WrittenField(cfg, d.m, "s1", patch, now, "isPaused");
  }

  /**
   * A pause does not cancel the timer a previous state set: the paused write
   * replaces the stored id by `null`, and when that timer goes off its state
   * runs unpaused and restarts detection.
   */
  lemma PauseIsUndoneByPendingTimer(lib: Record, now: int)
    requires !Truthy(Get(lib, "isPaused"))
    ensures MovesForward(PauseConfig())
    ensures var cfg := PauseConfig();
      var o1 := Execute(cfg, Create(cfg, lib, now), "s0", false, now);
      var o2 := Execute(cfg, o1.m, "p", true, now);
      && Get(o1.m.fast, "timeoutID") == Num(1) && Get(o2.m.fast, "timeoutID") == Null
      && o2.r.Success? && !o2.m.listening && o2.m.timers == map[1 := "s1"] && Clear(cfg, o2.m) == o2.m
      && var o3 := Fire(cfg, o2.m, 1, now);
         o3.r.Success? && o3.m.listening && Get(o3.m.lib, "isPaused") == Bool(false)
  {
    PauseMovesForward();
    var cfg := PauseConfig();
    var m := Create(cfg, lib, now);
    PauseExecuteS0(m, now);
    var o1 := Execute(cfg, m, "s0", false, now);
    PausedExecuteLeavesTimer(o1.m, now);
    TimerUndoesPause(Execute(cfg, o1.m, "p", true, now).m, now);
  }
}
