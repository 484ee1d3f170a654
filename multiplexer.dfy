/**
 * The action multiplexer (`createActionMultiplexer`) and store multiplexer
 * (`createStoreMultiplexer`) of `src/lib/store.js`.
 */
module Multiplexers {
  import opened Wrappers
  import opened JsValues

  /** A payload or meta creator of an action definition: a function of the action's arguments, or a value used as is. */
  datatype Creator = Compute(f: Value -> Value) | Constant(v: Value)

  /** `{ type, payloadCreator, metaCreator }` */
  datatype ActionDefinition = ActionDefinition(defType: Value, payloadCreator: Creator, metaCreator: Creator)

  /** The translators of `selectActionCreator`: the identity, or `translators.delay(delay)`. */
  datatype Translator = Identity | AddDelay(delay: int)

  function Produced(creator: Creator, args: Value): Value {
    match creator
    case Compute(f) => f(args)
    case Constant(v) => v
  }

  /** `translateCreator(creator)(translate)(args)` */
  function Translated(creator: Creator, translate: Translator, args: Value): (r: Value)
    ensures translate.Identity? ==> r == Produced(creator, args)
    ensures translate.AddDelay? ==>
      r.Obj? && Overlays(r.fields, OwnProps(Produced(creator, args)), map["delay" := Num(translate.delay)])
  {
    match translate
    case Identity => Produced(creator, args)
    case AddDelay(delay) => Obj(OwnProps(Produced(creator, args)) + map["delay" := Num(delay)])
  }

  /** What `createAction(type, payloadCreator', metaCreator')` returns, as data. */
  datatype ActionCreator = ActionCreator(actionType: string, payloadCreator: Creator, metaCreator: Creator,
                                         translatePayload: Translator, translateMeta: Translator)

  /**
   * Calling an action creator on its arguments: the configured type, and a
   * payload and meta each produced from the arguments and then translated.
   */
  function CreateAction(creator: ActionCreator, args: Value): (r: Action)
    ensures r.actionType == creator.actionType
    ensures creator.translatePayload.Identity? ==> r.payload == Produced(creator.payloadCreator, args)
    ensures creator.translatePayload.AddDelay? ==>
      r.payload.Obj? && Overlays(r.payload.fields, OwnProps(Produced(creator.payloadCreator, args)),
                                 map["delay" := Num(creator.translatePayload.delay)])
    ensures creator.translateMeta.Identity? ==> r.meta == Produced(creator.metaCreator, args)
    ensures creator.translateMeta.AddDelay? ==>
      r.meta.Obj? && Overlays(r.meta.fields, OwnProps(Produced(creator.metaCreator, args)),
                              map["delay" := Num(creator.translateMeta.delay)])
  {
    Action(creator.actionType,
           Translated(creator.payloadCreator, creator.translatePayload, args),
           Translated(creator.metaCreator, creator.translateMeta, args))
  }

  datatype ActionMultiplexer = ActionMultiplexer(actionMap: map<string, ActionDefinition>)

  /** `createActionMultiplexer(actionMapping)`: the mapping becomes a Map, later duplicates winning. */
  function CreateActionMultiplexer(actionMapping: seq<(string, ActionDefinition)>): (r: ActionMultiplexer)
    ensures r.actionMap.Keys == set i | 0 <= i < |actionMapping| :: actionMapping[i].0
    ensures forall i :: 0 <= i < |actionMapping| && (forall j :: i < j < |actionMapping| ==> actionMapping[j].0 != actionMapping[i].0) ==>
      r.actionMap[actionMapping[i].0] == actionMapping[i].1
  {
    assert forall i :: 0 <= i < |actionMapping| && (forall j :: i < j < |actionMapping| ==> actionMapping[j].0 != actionMapping[i].0) ==>
      MapFromEntries(actionMapping)[actionMapping[i].0] == actionMapping[i].1 by {
      forall i | 0 <= i < |actionMapping| && (forall j :: i < j < |actionMapping| ==> actionMapping[j].0 != actionMapping[i].0)
        ensures MapFromEntries(actionMapping)[actionMapping[i].0] == actionMapping[i].1
      {
        MapFromEntriesLastWins(actionMapping, i);
      }
    }
    ActionMultiplexer(MapFromEntries(actionMapping))
  }

  /**
   * `selectActionCreator(actionName, { translatePayload, translateMeta })`: fails
   * for an unconfigured name and for a type that is not a non-empty string.
   */
  function SelectActionCreator(mux: ActionMultiplexer, actionName: string,
                               translatePayload: Translator, translateMeta: Translator): (r: Result<ActionCreator, string>)
    ensures r.Success? <==>
      actionName in mux.actionMap && mux.actionMap[actionName].defType.Str? && mux.actionMap[actionName].defType.s != ""
    ensures r.Success? ==>
      var d := mux.actionMap[actionName];
      r.value == ActionCreator(d.defType.s, d.payloadCreator, d.metaCreator, translatePayload, translateMeta)
  {
    if actionName !in mux.actionMap then
      Failure("action definition for actionName " + actionName + " must be configured in createActionMultiplexer")
    else
      var d := mux.actionMap[actionName];
      if !Truthy(d.defType) then Failure("action type must be defined for actionName => " + actionName)
      else if !d.defType.Str? then Failure("action type must be string for actionName => " + actionName)
      else Success(ActionCreator(d.defType.s, d.payloadCreator, d.metaCreator, translatePayload, translateMeta))
  }

  /** `selectDelayedActionCreator(actionName, delay)`: the plain creator whose meta gains `{ delay }`. */
  function SelectDelayedActionCreator(mux: ActionMultiplexer, actionName: string, delay: int): (r: Result<ActionCreator, string>)
    ensures r.Success? <==> SelectActionCreator(mux, actionName, Identity, Identity).Success?
    ensures r.Success? ==>
      r.value == SelectActionCreator(mux, actionName, Identity, Identity).value.(translateMeta := AddDelay(delay))
  {
    SelectActionCreator(mux, actionName, Identity, AddDelay(delay))
  }

  /**
   * `selectAction(actionName, args)`: fails exactly as `selectActionCreator`
   * does; otherwise the action has the definition's type and the payload and
   * meta its creators produce from `args`.
   */
  function SelectAction(mux: ActionMultiplexer, actionName: string, args: Value): (r: Result<Action, string>)
    ensures r.Success? <==>
      actionName in mux.actionMap && mux.actionMap[actionName].defType.Str? && mux.actionMap[actionName].defType.s != ""
    ensures r.Success? ==>
      var d := mux.actionMap[actionName];
      r.value == Action(d.defType.s, Produced(d.payloadCreator, args), Produced(d.metaCreator, args))
  {
    var creator :- SelectActionCreator(mux, actionName, Identity, Identity);
    Success(CreateAction(creator, args))
  }

  /**
   * A delayed creator fails exactly when the plain one does; its actions have
   * the same type and payload, and its meta is the plain meta plus `{ delay }`.
   */
  lemma DelayedCreatorAddsDelay(mux: ActionMultiplexer, actionName: string, delay: int, args: Value)
    ensures SelectDelayedActionCreator(mux, actionName, delay).Success? <==> SelectAction(mux, actionName, args).Success?
    ensures SelectAction(mux, actionName, args).Success? ==>
      var plain := SelectAction(mux, actionName, args).value;
      var delayed := CreateAction(SelectDelayedActionCreator(mux, actionName, delay).value, args);
      && delayed.actionType == plain.actionType && delayed.payload == plain.payload
      && delayed.meta.Obj? && Overlays(delayed.meta.fields, OwnProps(plain.meta), map["delay" := Num(delay)])
  {
  }

  /** The store multiplexer over stores of type `S`, with its Map of stores. */
  datatype StoreMultiplexer<S> = StoreMultiplexer(storeMapping: seq<(string, S)>, actions: ActionMultiplexer) {
    function StoreMap(): map<string, S> {
      MapFromEntries(storeMapping)
    }
  }

  /** `mapReduceStores(operation)`: one result per configured store name. */
  method MapReduceStores<S, R>(mux: StoreMultiplexer<S>, operation: S -> R) returns (result: map<string, R>)
    ensures result.Keys == mux.StoreMap().Keys
    ensures forall name :: name in result ==> result[name] == operation(mux.StoreMap()[name])
  {
    var storeMap := mux.StoreMap();
    var entries := mux.storeMapping;
    result := map[];
    var i := 0;
    while i < |entries|
      invariant 0 <= i <= |entries|
      invariant result.Keys == set j | 0 <= j < i :: entries[j].0
      invariant forall name :: name in result ==> name in storeMap && result[name] == operation(storeMap[name])
    {
      var name := entries[i].0;
      assert name in storeMap;
      result := result[name := operation(storeMap[name])];
      i := i + 1;
    }
  }

  /** `dispatch(action)`: dispatches to every store and collects name ↦ result. */
  method Dispatch<S>(mux: StoreMultiplexer<S>, storeDispatch: (S, Action) -> Action, action: Action)
    returns (result: map<string, Action>)
    ensures result.Keys == mux.StoreMap().Keys
    ensures forall name :: name in result ==> result[name] == storeDispatch(mux.StoreMap()[name], action)
  {
    result := MapReduceStores(mux, s => storeDispatch(s, action));
  }

  /** `getState()`: every store's state, by name. */
  method GetState<S, T>(mux: StoreMultiplexer<S>, storeGetState: S -> T) returns (result: map<string, T>)
    ensures result.Keys == mux.StoreMap().Keys
    ensures forall name :: name in result ==> result[name] == storeGetState(mux.StoreMap()[name])
  {
    result := MapReduceStores(mux, storeGetState);
  }

  /** `select(...names)`: the configured stores among `names`, in the requested order. */
  function Select<S>(storeMap: map<string, S>, names: seq<string>): (r: seq<S>)
    ensures |r| <= |names|
  {
    if names == [] then []
    else (if names[0] in storeMap then [storeMap[names[0]]] else []) + Select(storeMap, names[1..])
  }

  /** `select` distributes over concatenation of the requested names: it keeps their order. */
  lemma {:induction false} SelectAppend<S>(storeMap: map<string, S>, a: seq<string>, b: seq<string>)
    ensures Select(storeMap, a + b) == Select(storeMap, a) + Select(storeMap, b)
  {
    if a != [] {
      assert (a + b)[1..] == a[1..] + b;
      SelectAppend(storeMap, a[1..], b);
    } else {
      assert a + b == b;
    }
  }

  /** A requested name that is configured contributes its store, one that is not contributes nothing. */
  lemma SelectOne<S>(storeMap: map<string, S>, name: string)
    ensures Select(storeMap, [name]) == if name in storeMap then [storeMap[name]] else []
  {
  }

  const NoStoreSelected: string := "None of the requested stores exist in storeMapping"

  /** `selectFirst(...names)`: the first configured store among `names`; throws when there is none. */
  method SelectFirst<S>(mux: StoreMultiplexer<S>, names: seq<string>) returns (r: Result<S, string>)
    ensures r.Success? <==> Select(mux.StoreMap(), names) != []
    ensures r.Success? ==> r.value == Select(mux.StoreMap(), names)[0]
    ensures r.Failure? ==> forall name :: name in names ==> name !in mux.StoreMap()
  {
    var storeMap := mux.StoreMap();
    var i := 0;
    while i < |names|
      invariant 0 <= i <= |names|
      invariant Select(storeMap, names) == Select(storeMap, names[i..])
      invariant forall j :: 0 <= j < i ==> names[j] !in storeMap
    {
      if names[i] in storeMap {
        return Success(storeMap[names[i]]);
      }
      assert names[i..][1..] == names[i + 1..];
      i := i + 1;
    }
    return Failure(NoStoreSelected);
  }

  /** The action that `createActionDispatcher(actionName)({ delay })(args)` dispatches: delayed only when `delay > 0`. */
  function ActionToDispatch(actions: ActionMultiplexer, actionName: string, delay: int, args: Value): (r: Result<Action, string>)
    ensures delay <= 0 ==> r == SelectAction(actions, actionName, args)
    ensures delay > 0 ==> (r.Success? <==> SelectAction(actions, actionName, args).Success?)
    ensures delay > 0 && r.Success? ==>
      var plain := SelectAction(actions, actionName, args).value;
      && r.value.actionType == plain.actionType && r.value.payload == plain.payload
      && r.value.meta.Obj? && Overlays(r.value.meta.fields, OwnProps(plain.meta), map["delay" := Num(delay)])
  {
    DelayedCreatorAddsDelay(actions, actionName, delay, args);
    if delay <= 0 then SelectAction(actions, actionName, args)
    else
      var creator :- SelectDelayedActionCreator(actions, actionName, delay);
      Success(CreateAction(creator, args))
  }

  /** `dispatchAction(actionName, args, { delay })`: creates the action, then dispatches it to every store. */
  method DispatchAction<S>(mux: StoreMultiplexer<S>, storeDispatch: (S, Action) -> Action,
                           actionName: string, args: Value, delay: int)
    returns (r: Result<map<string, Action>, string>)
    ensures r.Success? <==> ActionToDispatch(mux.actions, actionName, delay, args).Success?
    ensures r.Success? ==>
      var action := ActionToDispatch(mux.actions, actionName, delay, args).value;
      && r.value.Keys == mux.StoreMap().Keys
      && forall name :: name in r.value ==> r.value[name] == storeDispatch(mux.StoreMap()[name], action)
  {
    var action := ActionToDispatch(mux.actions, actionName, delay, args);
    if action.Failure? {
      return Failure(action.error);
    }
    var results := Dispatch(mux, storeDispatch, action.value);
    return Success(results);
  }
}
