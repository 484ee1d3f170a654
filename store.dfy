/**
 * Redux-compatible store utilities of `src/lib/store.js`: constant-case key
 * formatting, a browser-storage state accessor with one storage key per state
 * field, a store over that accessor, the subscribe-filtered reducers and path
 * selection of a sub state.
 */
module Stores {
  import opened Wrappers
  import opened JsValues

  predicate IsDashOrSpace(c: char) {
    c == '-' || c == ' '
  }

  /** What the pattern `/[- ]/` matches: the index of the first `-` or space, or -1. */
  function FirstDashOrSpace(s: string): (i: int)
    ensures -1 <= i < |s|
    ensures i >= 0 ==> IsDashOrSpace(s[i])
    ensures forall j :: 0 <= j < |s| && (i == -1 || j < i) ==> !IsDashOrSpace(s[j])
  {
    if s == [] then -1
    else if IsDashOrSpace(s[0]) then 0
    else
      var j := FirstDashOrSpace(s[1..]);
      if j == -1 then -1 else j + 1
  }

  /** `s` with the character at `i` replaced by `c`. */
  function ReplaceAt(s: string, i: nat, c: char): (r: string)
    requires i < |s|
    ensures |r| == |s|
    ensures forall j :: 0 <= j < |s| ==> r[j] == if j == i then c else s[j]
  {
    s[..i] + [c] + s[i + 1..]
  }

  /** `value.replace(/[- ]/, '_').toUpperCase()`: only the first `-` or space becomes `_`. */
  function ToConstCase(value: string): (r: string)
    ensures |r| == |value|
    ensures forall j :: 0 <= j < |value| ==>
      r[j] == if j == FirstDashOrSpace(value) then '_' else UpperChar(value[j])
  {
    var i := FirstDashOrSpace(value);
    Upper(if i == -1 then value else ReplaceAt(value, i, '_'))
  }

  /** The default `formatKey(prefix, key)`: `CONST(prefix)_CONST(key)`. */
  function DefaultFormatKey(prefix: string, key: string): (r: string)
    ensures |r| == |prefix| + 1 + |key| && r[|prefix|] == '_'
    ensures r[..|prefix|] == ToConstCase(prefix) && r[|prefix| + 1..] == ToConstCase(key)
  {
    ToConstCase(prefix) + "_" + ToConstCase(key)
  }

  /** Two different state keys can share one default storage key. */
  lemma DefaultFormatKeyCollides()
    ensures "a-b" != "a_b" && DefaultFormatKey("redux", "a-b") == DefaultFormatKey("redux", "a_b")
  {
    assert FirstDashOrSpace("a-b") == 1;
    assert FirstDashOrSpace("a_b") == -1 by {
      assert !IsDashOrSpace("a_b"[0]) && !IsDashOrSpace("a_b"[1]) && !IsDashOrSpace("a_b"[2]);
    }
    var dashed := ToConstCase("a-b");
    var underscored := ToConstCase("a_b");
    assert dashed[0] == 'A' && dashed[1] == '_' && dashed[2] == 'B';
    assert underscored[0] == 'A' && underscored[1] == '_' && underscored[2] == 'B';
    assert dashed == underscored;
  }

  /** A `localStorage`/`sessionStorage`-like key/value store. */
  class Storage {
    var items: map<string, Value>

    constructor (initial: map<string, Value>)
      ensures items == initial
    {
      items := initial;
    }

    method SetItem(key: string, v: Value)
      modifies this
      ensures items == old(items)[key := v]
    {
      items := items[key := v];
    }
  }

  /** `getItem(key)`: `null` for a key that was never set. */
  function ItemOf(items: map<string, Value>, key: string): Value {
    if key in items then items[key] else Null
  }

  /** The accessor's `keyMap`: each state key with its storage key, in `Object.keys` order. */
  function KeyMap(prefix: string, formatKey: (string, string) -> string, keys: seq<string>): (km: seq<(string, string)>)
    ensures |km| == |keys|
    ensures forall i :: 0 <= i < |keys| ==> km[i] == (keys[i], formatKey(prefix, keys[i]))
  {
    seq(|keys|, i requires 0 <= i < |keys| => (keys[i], formatKey(prefix, keys[i])))
  }

  ghost predicate StateKeysDistinct(km: seq<(string, string)>) {
    forall i, j :: 0 <= i < j < |km| ==> km[i].0 != km[j].0
  }

  ghost predicate StorageKeysDistinct(km: seq<(string, string)>) {
    forall i, j :: 0 <= i < j < |km| ==> km[i].1 != km[j].1
  }

  /** Storage after `setState(s)`: `setItem(storageKey, s[key])` for every entry of `keyMap`, in order. */
  function WriteAll(items: map<string, Value>, km: seq<(string, string)>, s: Record): (r: map<string, Value>)
    ensures items.Keys <= r.Keys
    ensures forall i :: 0 <= i < |km| ==> km[i].1 in r
  {
    if km == [] then items
    else
      var n := |km| - 1;
      WriteAll(items, km[..n], s)[km[n].1 := Get(s, km[n].0)]
  }

  /** The object `getState()` builds: every state key, read from its storage key. */
  function ReadAll(items: map<string, Value>, km: seq<(string, string)>): (r: Record)
    ensures forall i :: 0 <= i < |km| ==> km[i].0 in r
    ensures forall k :: k in r ==> r[k] == Null || r[k] in items.Values
  {
    if km == [] then map[]
    else
      var n := |km| - 1;
      ReadAll(items, km[..n])[km[n].0 := ItemOf(items, km[n].1)]
  }

  /** `setState` writes the storage key of every state key, and nothing else. */
  lemma {:induction false} WriteAllFrame(items: map<string, Value>, km: seq<(string, string)>, s: Record, key: string)
    ensures (key in WriteAll(items, km, s)) <==> (key in items || exists i :: 0 <= i < |km| && km[i].1 == key)
    ensures (forall i :: 0 <= i < |km| ==> km[i].1 != key) ==> key in items ==> WriteAll(items, km, s)[key] == items[key]
  {
    if km != [] {
      var n := |km| - 1;
      WriteAllFrame(items, km[..n], s, key);
      if exists i :: 0 <= i < n && km[..n][i].1 == key {
        var i :| 0 <= i < n && km[..n][i].1 == key;
        assert km[i].1 == key;
      }
      if exists i :: 0 <= i < |km| && km[i].1 == key {
        var i :| 0 <= i < |km| && km[i].1 == key;
        if i < n { assert km[..n][i].1 == key; }
      }
    }
  }

  /** `setState` reads `s` only at the configured state keys: every other key of `s` is ignored. */
  lemma {:induction false} WriteAllIgnoresOtherKeys(items: map<string, Value>, km: seq<(string, string)>, s1: Record, s2: Record)
    requires forall i :: 0 <= i < |km| ==> Get(s1, km[i].0) == Get(s2, km[i].0)
    ensures WriteAll(items, km, s1) == WriteAll(items, km, s2)
  {
    if km != [] {
      var n := |km| - 1;
      forall i | 0 <= i < n ensures Get(s1, km[..n][i].0) == Get(s2, km[..n][i].0) {
        assert km[..n][i] == km[i];
      }
      WriteAllIgnoresOtherKeys(items, km[..n], s1, s2);
    }
  }

  lemma {:induction false} WriteAllAt(items: map<string, Value>, km: seq<(string, string)>, s: Record, i: nat)
    requires StorageKeysDistinct(km) && i < |km|
    ensures km[i].1 in WriteAll(items, km, s) && WriteAll(items, km, s)[km[i].1] == Get(s, km[i].0)
  {
    var n := |km| - 1;
    if i < n {
      assert km[..n][i] == km[i];
      WriteAllAt(items, km[..n], s, i);
    }
  }

  lemma {:induction false} ReadAllAt(items: map<string, Value>, km: seq<(string, string)>, i: nat)
    requires StateKeysDistinct(km) && i < |km|
    ensures km[i].0 in ReadAll(items, km) && ReadAll(items, km)[km[i].0] == ItemOf(items, km[i].1)
  {
    var n := |km| - 1;
    if i < n {
      assert km[..n][i] == km[i];
      ReadAllAt(items, km[..n], i);
    }
  }

  lemma {:induction false} ReadAllKeys(items: map<string, Value>, km: seq<(string, string)>)
    ensures ReadAll(items, km).Keys == set i | 0 <= i < |km| :: km[i].0
  {
    if km != [] {
      var n := |km| - 1;
      ReadAllKeys(items, km[..n]);
      ghost var all := set i | 0 <= i < |km| :: km[i].0;
      assert (set i | 0 <= i < n :: km[..n][i].0) + {km[n].0} == all by {
        forall k | k in all
          ensures k in (set i | 0 <= i < n :: km[..n][i].0) + {km[n].0}
        {
          var i :| 0 <= i < |km| && km[i].0 == k;
          if i < n { assert km[..n][i].0 == k; }
        }
      }
    }
  }

  /**
   * The accessor's round trip: when the storage keys of distinct state keys
   * differ (`formatKey` injective on them), `getState()` after `setState(s)`
   * returns `s[k]` for every configured key `k` and has no other key.
   */
  lemma AccessorRoundTrip(items: map<string, Value>, km: seq<(string, string)>, s: Record)
    requires StateKeysDistinct(km) && StorageKeysDistinct(km)
    ensures ReadAll(WriteAll(items, km, s), km).Keys == set i | 0 <= i < |km| :: km[i].0
    ensures forall i :: 0 <= i < |km| ==> ReadAll(WriteAll(items, km, s), km)[km[i].0] == Get(s, km[i].0)
  {
    var written := WriteAll(items, km, s);
    ReadAllKeys(written, km);
    forall i | 0 <= i < |km| ensures ReadAll(written, km)[km[i].0] == Get(s, km[i].0) {
      ReadAllAt(written, km, i);
      WriteAllAt(items, km, s, i);
    }
  }

  /** The state accessor of `configureBrowserStateAccessor` in its one-key-per-field mode. */
  class StateAccessor {
    const storage: Storage
    /** Fixed at creation from the keys of the initial state. */
    const keyMap: seq<(string, string)>

    /** Creation fixes the key set and writes `initialState`; `initialKeys` is `Object.keys(initialState)`. */
    constructor (storage: Storage, prefix: string, formatKey: (string, string) -> string,
                 initialKeys: seq<string>, initialState: Record)
      requires forall i, j :: 0 <= i < j < |initialKeys| ==> initialKeys[i] != initialKeys[j]
      requires (set k | k in initialKeys) == initialState.Keys
      modifies storage
      ensures this.storage == storage && keyMap == KeyMap(prefix, formatKey, initialKeys)
      ensures StateKeysDistinct(keyMap)
      ensures storage.items == WriteAll(old(storage.items), keyMap, initialState)
    {
      this.storage := storage;
      keyMap := KeyMap(prefix, formatKey, initialKeys);
      new;
      SetState(initialState);
    }

    method SetState(newState: Record)
      modifies storage
      ensures storage.items == WriteAll(old(storage.items), keyMap, newState)
    {
      var i := 0;
      while i < |keyMap|
        invariant 0 <= i <= |keyMap|
        invariant storage.items == WriteAll(old(storage.items), keyMap[..i], newState)
      {
        assert keyMap[..i + 1][..i] == keyMap[..i];
        storage.SetItem(keyMap[i].1, Get(newState, keyMap[i].0));
        i := i + 1;
      }
      assert keyMap[..i] == keyMap;
    }

    method GetState() returns (newState: Record)
      ensures newState == ReadAll(storage.items, keyMap)
    {
      newState := map[];
      var i := 0;
      while i < |keyMap|
        invariant 0 <= i <= |keyMap|
        invariant newState == ReadAll(storage.items, keyMap[..i])
      {
        assert keyMap[..i + 1][..i] == keyMap[..i];
        newState := newState[keyMap[i].0 := ItemOf(storage.items, keyMap[i].1)];
        i := i + 1;
      }
      assert keyMap[..i] == keyMap;
    }
  }

  /**
   * What a browser reducer does with `(state, action)`: it returns the next
   * state, throws, or calls the store's own `dispatch(inner)` without catching
   * what that call throws.
   */
  datatype Reduction = Reduced(next: Record) | Throws(error: string) | DispatchesInside(inner: Action)

  type Reducer = (Record, Action) -> Reduction

  const InitActionType: string := "@@redux-browser/INIT"
  const InitAction: Action := Action(InitActionType, Undefined, Undefined)
  const ReentrantDispatch: string := "Browser reducers may not dispatch actions."

  /** The value or the exception a reduction ends in, once the nested `dispatch` has thrown. */
  function Ended(n: Reduction): Result<Record, string> {
    match n
    case Reduced(next) => Success(next)
    case Throws(error) => Failure(error)
    case DispatchesInside(_) => Failure(ReentrantDispatch)
  }

  /** `array.splice(index, 1)` on a sequence: a negative index counts from the end. */
  function SpliceOne<T>(s: seq<T>, index: int): seq<T> {
    var start := if index < 0 then (if |s| + index < 0 then 0 else |s| + index)
                 else (if index > |s| then |s| else index);
    if start < |s| then s[..start] + s[start + 1..] else s
  }

  /**
   * The listeners left by the unsubscribe function of `listener`: the first
   * occurrence of `listener` is removed; when it is no longer subscribed,
   * `indexOf` gives -1 and `splice(-1, 1)` removes the LAST listener.
   */
  function Unsubscribed(listeners: seq<nat>, listener: nat): (r: seq<nat>)
    ensures listener in listeners ==>
      exists k :: (0 <= k < |listeners| && listeners[k] == listener
        && (forall j :: 0 <= j < k ==> listeners[j] != listener) && r == listeners[..k] + listeners[k + 1..])
    ensures listener in listeners ==> multiset(r) == multiset(listeners) - multiset{listener}
    ensures listener !in listeners && listeners != [] ==> r == listeners[..|listeners| - 1]
    ensures listeners == [] ==> r == []
  {
    var k := IndexOf(listeners, listener);
    assert k >= 0 ==> listeners == listeners[..k] + [listeners[k]] + listeners[k + 1..];
    SpliceOne(listeners, k)
  }

  /** The store of `configureBrowserStore`, with `listeners` as ids and a log of listener calls. */
  class BrowserStore {
    const accessor: StateAccessor
    var currentReducer: Reducer
    var listeners: seq<nat>
    var isDispatching: bool
    /** Every listener call, in order. */
    var notified: seq<nat>

    constructor (accessor: StateAccessor, reducer: Reducer)
      ensures this.accessor == accessor && currentReducer == reducer
      ensures listeners == [] && !isDispatching && notified == []
    {
      this.accessor := accessor;
      currentReducer := reducer;
      listeners := [];
      isDispatching := false;
      notified := [];
    }

    /** `configureBrowserStore(accessorFactory)(reducer, initialState)`: writes the initial state, then dispatches one INIT action. */
    static method Configure(storage: Storage, prefix: string, formatKey: (string, string) -> string,
                            initialKeys: seq<string>, initialState: Record, reducer: Reducer)
      returns (r: Result<BrowserStore, string>)
      requires forall i, j :: 0 <= i < j < |initialKeys| ==> initialKeys[i] != initialKeys[j]
      requires (set k | k in initialKeys) == initialState.Keys
      modifies storage
      ensures var km := KeyMap(prefix, formatKey, initialKeys);
              var written := WriteAll(old(storage.items), km, initialState);
              var next := Ended(reducer(ReadAll(written, km), InitAction));
              && (next.Failure? ==> r == Failure(next.error) && storage.items == written)
              && (next.Success? ==> r.Success? && storage.items == WriteAll(written, km, next.value))
      ensures r.Success? ==>
        (fresh(r.value) && r.value.accessor.storage == storage
         && r.value.accessor.keyMap == KeyMap(prefix, formatKey, initialKeys)
         && r.value.currentReducer == reducer && r.value.listeners == [] && r.value.notified == []
         && !r.value.isDispatching)
    {
      var accessor := new StateAccessor(storage, prefix, formatKey, initialKeys, initialState);
      var store := new BrowserStore(accessor, reducer);
      var d := store.Dispatch(InitAction);
      if d.Failure? {
        return Failure(d.error);
      }
      return Success(store);
    }

    method Subscribe(listener: nat)
      modifies this
      ensures listeners == old(listeners) + [listener]
      ensures currentReducer == old(currentReducer) && isDispatching == old(isDispatching) && notified == old(notified)
    {
      listeners := listeners + [listener];
    }

    /** The function that `subscribe(listener)` returns. */
    method Unsubscribe(listener: nat)
      modifies this
      ensures listeners == Unsubscribed(old(listeners), listener)
      ensures currentReducer == old(currentReducer) && isDispatching == old(isDispatching) && notified == old(notified)
    {
      var index := IndexOf(listeners, listener);
      listeners := SpliceOne(listeners, index);
    }

    /**
     * Stores `currentReducer(getState(), action)` and returns `action`; the
     * listeners subscribed at that moment are called after the write. A
     * dispatch while dispatching throws, so a reducer that dispatches throws;
     * `isDispatching` is reset whether or not the reducer throws.
     */
    method Dispatch(action: Action) returns (r: Result<Action, string>)
      modifies this, accessor.storage
      decreases if isDispatching then 0 else 1
      ensures listeners == old(listeners) && currentReducer == old(currentReducer)
      ensures old(isDispatching) ==>
        (r == Failure(ReentrantDispatch) && isDispatching
         && notified == old(notified) && accessor.storage.items == old(accessor.storage.items))
      ensures !old(isDispatching) ==> !isDispatching
      ensures !old(isDispatching) ==>
        var next := Ended(currentReducer(ReadAll(old(accessor.storage.items), accessor.keyMap), action));
        && (next.Failure? ==>
              (r == Failure(next.error) && notified == old(notified)
               && accessor.storage.items == old(accessor.storage.items)))
        && (next.Success? ==>
              (r == Success(action) && notified == old(notified) + listeners
               && accessor.storage.items == WriteAll(old(accessor.storage.items), accessor.keyMap, next.value)))
      ensures !old(isDispatching) && currentReducer(ReadAll(old(accessor.storage.items), accessor.keyMap), action).DispatchesInside? ==>
        r == Failure(ReentrantDispatch) && notified == old(notified) && accessor.storage.items == old(accessor.storage.items)
    {
      if isDispatching {
        return Failure(ReentrantDispatch);
      }
      isDispatching := true;
      var state := accessor.GetState();
      var next: Result<Record, string>;
      match currentReducer(state, action) {
        case Reduced(s) =>
          next := Success(s);
        case Throws(e) =>
          next := Failure(e);
        case DispatchesInside(inner) =>
          var nested := Dispatch(inner);
          next := Failure(nested.error);
      }
      if next.Success? {
        accessor.SetState(next.value);
      }
      isDispatching := false;
      if next.Failure? {
        return Failure(next.error);
      }
      notified := notified + listeners;
      return Success(action);
    }

    /** Installs `nextReducer`, then dispatches one INIT action through it; returns `undefined`. */
    method ReplaceReducer(nextReducer: Reducer) returns (r: Result<(), string>)
      modifies this, accessor.storage
      ensures currentReducer == nextReducer && listeners == old(listeners)
      ensures !old(isDispatching) ==> !isDispatching
      ensures !old(isDispatching) ==>
        var next := Ended(nextReducer(ReadAll(old(accessor.storage.items), accessor.keyMap), InitAction));
        && (next.Failure? ==>
              (r == Failure(next.error) && notified == old(notified)
               && accessor.storage.items == old(accessor.storage.items)))
        && (next.Success? ==>
              (r == Success(()) && notified == old(notified) + listeners
               && accessor.storage.items == WriteAll(old(accessor.storage.items), accessor.keyMap, next.value)))
    {
      currentReducer := nextReducer;
      var d := Dispatch(InitAction);
      if d.Failure? {
        return Failure(d.error);
      }
      return Success(());
    }
  }

  /**
   * `configureReducer(actionReducer, mergeState)(...subscribeTypes)(state, action)`:
   * an unsubscribed action type leaves the state as it is; a subscribed one
   * yields `actionReducer(action)`, overlaid on the state when merging.
   */
  function ConfigureReducer(actionReducer: Action -> Value, mergeState: bool, subscribeTypes: seq<string>,
                            state: Value, action: Action): (r: Value)
    ensures action.actionType !in subscribeTypes ==> r == state
    ensures action.actionType in subscribeTypes && !mergeState ==> r == actionReducer(action)
    ensures action.actionType in subscribeTypes && mergeState ==>
      r.Obj? && Overlays(r.fields, OwnProps(state), OwnProps(actionReducer(action)))
  {
    if action.actionType in subscribeTypes then
      (if mergeState then Obj(OwnProps(state) + OwnProps(actionReducer(action))) else actionReducer(action))
    else state
  }

  function PayloadOf(action: Action): Value {
    action.payload
  }

  /** `createMergingReducer(...subscribeTypes)`: merges the payload of subscribed actions into the state. */
  function MergingReducer(subscribeTypes: seq<string>, state: Value, action: Action): (r: Value)
    ensures action.actionType !in subscribeTypes ==> r == state
    ensures action.actionType in subscribeTypes ==> r.Obj? && Overlays(r.fields, OwnProps(state), OwnProps(action.payload))
  {
    ConfigureReducer(PayloadOf, true, subscribeTypes, state, action)
  }

  /** The JavaScript array that `selectState` shifts its keys off. */
  class KeyList {
    var keys: seq<string>

    constructor (keys: seq<string>)
      ensures this.keys == keys
    {
      this.keys := keys;
    }
  }

  const StateRequired: string := "state is required"

  /**
   * Where the selection loop stops after `c` shifts of `keys`: every key but
   * the last shifted one selects a truthy value of the ROOT state, and the loop
   * either ran out of keys or met a falsy value.
   */
  ghost predicate StopsAfter(state: Value, keys: seq<string>, c: nat) {
    && c <= |keys|
    && (c == 0 <==> keys == [])
    && (forall j :: 0 <= j < c - 1 ==> Truthy(Member(state, keys[j])))
    && (c < |keys| ==> !Truthy(Member(state, keys[c - 1])))
  }

  /**
   * `selectState(selectKeys, state, defaultValue)`: shifts keys off the caller's
   * array while the result is truthy, each time reading the root `state` (not
   * the previous result), and returns the last result, or `defaultValue` when
   * that is falsy. A falsy `state` fails the `state is required` assertion.
   */
  method SelectState(selectKeys: KeyList, state: Value, defaultValue: Value) returns (r: Result<Value, string>)
    modifies selectKeys
    ensures !Truthy(state) ==> r == Failure(StateRequired) && selectKeys.keys == old(selectKeys.keys)
    ensures Truthy(state) ==>
      var c := |old(selectKeys.keys)| - |selectKeys.keys|;
      && 0 <= c && selectKeys.keys == old(selectKeys.keys)[c..]
      && StopsAfter(state, old(selectKeys.keys), c)
      && r == Success(Or(if c == 0 then state else Member(state, old(selectKeys.keys)[c - 1]), defaultValue))
  {
    if !Truthy(state) {
      return Failure(StateRequired);
    }
    ghost var keys0 := selectKeys.keys;
    var result := state;
    while |selectKeys.keys| > 0 && Truthy(result)
      invariant |selectKeys.keys| <= |keys0| && selectKeys.keys == keys0[|keys0| - |selectKeys.keys|..]
      invariant var c := |keys0| - |selectKeys.keys|;
        && result == (if c == 0 then state else Member(state, keys0[c - 1]))
        && (forall j :: 0 <= j < c - 1 ==> Truthy(Member(state, keys0[j])))
      decreases |selectKeys.keys|
    {
      var key := selectKeys.keys[0];
      selectKeys.keys := selectKeys.keys[1..];
      result := Member(state, key);
    }
    return Success(Or(result, defaultValue));
  }

  /** The sub store of `bisectStore`: it captures its key array once and shares it between `getState` calls. */
  class BisectedStore {
    const selectKeys: KeyList

    constructor (keys: seq<string>)
      ensures fresh(selectKeys) && selectKeys.keys == keys
    {
      selectKeys := new KeyList(keys);
    }

    /** `getState()` over the root state of the wrapped store. */
    method GetState(rootState: Value) returns (r: Result<Value, string>)
      modifies selectKeys
      ensures !Truthy(rootState) ==> r.Failure? && selectKeys.keys == old(selectKeys.keys)
      ensures Truthy(rootState) ==>
        var c := |old(selectKeys.keys)| - |selectKeys.keys|;
        && 0 <= c && selectKeys.keys == old(selectKeys.keys)[c..] && StopsAfter(rootState, old(selectKeys.keys), c)
      ensures Truthy(rootState) && old(selectKeys.keys) == [] ==> r == Success(rootState) && selectKeys.keys == []
      ensures Truthy(rootState) && (forall j :: 0 <= j < |old(selectKeys.keys)| ==> Truthy(Member(rootState, old(selectKeys.keys)[j]))) ==>
        selectKeys.keys == []
      ensures Truthy(rootState) ==>
        var c := |old(selectKeys.keys)| - |selectKeys.keys|;
        r == Success(Or(if c == 0 then rootState else Member(rootState, old(selectKeys.keys)[c - 1]), Undefined))
    {
      r := SelectState(selectKeys, rootState, Undefined);
    }
  }

  /** `bisectStore(store, ...selectKeys)`: at least one key is required. */
  method BisectStore(selectKeys: seq<string>) returns (r: Result<BisectedStore, string>)
    ensures r.Failure? <==> selectKeys == []
    ensures r.Success? ==> fresh(r.value) && fresh(r.value.selectKeys) && r.value.selectKeys.keys == selectKeys
  {
    if selectKeys == [] {
      return Failure("must define one or more keys to select on");
    }
    var b := new BisectedStore(selectKeys);
    return Success(b);
  }
}
