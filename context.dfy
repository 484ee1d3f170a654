/**
 * Context construction of `src/lib/context.js`: action-type names, option
 * validation, normalisation of the library options and the merged context.
 */
module Context {
  import opened Wrappers
  import opened JsValues

  /** The first index at or after `i` that does not hold `c`. */
  function RunEnd(s: string, i: nat, c: char): (r: nat)
    requires i <= |s|
    ensures i <= r <= |s|
    ensures forall j :: i <= j < r ==> s[j] == c
    ensures r < |s| ==> s[r] != c
    decreases |s| - i
  {
    if i == |s| || s[i] != c then i else RunEnd(s, i + 1, c)
  }

  /** The first index at or after `i` that is not whitespace. */
  function WhitespaceEnd(s: string, i: nat): (r: nat)
    requires i <= |s|
    ensures i <= r <= |s|
    ensures forall j :: i <= j < r ==> IsWhitespace(s[j])
    ensures r < |s| ==> !IsWhitespace(s[r])
    decreases |s| - i
  {
    if i == |s| || !IsWhitespace(s[i]) then i else WhitespaceEnd(s, i + 1)
  }

  /** The pattern `/-+\s+/` matches at `i`: a run of dashes from `i`, then at least one whitespace character. */
  predicate MatchesAt(s: string, i: nat) {
    && i < |s| && s[i] == '-'
    && var j := RunEnd(s, i, '-');
       j < |s| && IsWhitespace(s[j])
  }

  /** The leftmost index at or after `from` where the pattern matches. */
  function FindMatch(s: string, from: nat): (r: Option<nat>)
    requires from <= |s|
    ensures r.Some? ==> from <= r.value < |s| && MatchesAt(s, r.value)
    ensures r.Some? ==> forall j :: from <= j < r.value ==> !MatchesAt(s, j)
    ensures r.None? ==> forall j :: from <= j < |s| ==> !MatchesAt(s, j)
    decreases |s| - from
  {
    if from == |s| then None
    else if MatchesAt(s, from) then Some(from)
    else FindMatch(s, from + 1)
  }

  predicate NoLowerAscii(s: string) {
    forall j :: 0 <= j < |s| ==> !IsLowerAscii(s[j])
  }

  lemma NoLowerAsciiSplice(u: string, i: nat, k: nat)
    requires i <= k <= |u| && NoLowerAscii(u)
    ensures NoLowerAscii(u[..i] + "_" + u[k..])
  {
    var r := u[..i] + "_" + u[k..];
    forall j | 0 <= j < |r| ensures !IsLowerAscii(r[j]) {
      if j < i { assert r[j] == u[j]; }
      else if j > i { assert r[j] == u[k + j - i - 1]; }
    }
  }

  /**
   * `name.toUpperCase().replace(/-+\s+/, '_')`: the leftmost run of dashes
   * followed by whitespace, with all of that whitespace, becomes one `_`.
   */
  function CleanActionName(name: string): (r: string)
    ensures FindMatch(Upper(name), 0).None? ==> r == Upper(name)
    ensures FindMatch(Upper(name), 0).Some? ==>
      var u := Upper(name);
      var i := FindMatch(u, 0).value;
      var k := WhitespaceEnd(u, RunEnd(u, i, '-'));
      i < k && r == u[..i] + "_" + u[k..] && |r| == |name| - (k - i) + 1
    ensures NoLowerAscii(r)
  {
    var u := Upper(name);
    match FindMatch(u, 0)
    case None => u
    case Some(i) =>
      var k := WhitespaceEnd(u, RunEnd(u, i, '-'));
      NoLowerAsciiSplice(u, i, k);
      u[..i] + "_" + u[k..]
  }

  /** The part that every action type of one library and application starts with. */
  function ActionTypePrefix(libName: string, appName: string): string {
    CleanActionName(libName) + "_" + CleanActionName(appName) + "_"
  }

  /** `createActionType(actionName)`; a non-string `appName` makes `toUpperCase` throw. */
  function CreateActionType(libName: string, appName: Value, actionName: string): (r: Result<string, string>)
    ensures r.Success? <==> appName.Str?
    ensures r.Success? ==> r.value == ActionTypePrefix(libName, appName.s) + CleanActionName(actionName)
  {
    if appName.Str? then
      Success(CleanActionName(libName) + "_" + CleanActionName(appName.s) + "_" + CleanActionName(actionName))
    else Failure("TypeError: appName.toUpperCase is not a function")
  }

  /**
   * `pairs.map(x => x[0])`: the first components in order. This gives both
   * `libActionNames` (of `libActions`) and `libActionTypes` (of `typedLibActions`).
   */
  function FirstComponents(pairs: seq<(string, Value)>): (r: seq<string>)
    ensures |r| == |pairs| && forall i :: 0 <= i < |r| ==> r[i] == pairs[i].0
  {
    seq(|pairs|, i requires 0 <= i < |pairs| => pairs[i].0)
  }

  /** `libActions.map(x => [createActionType(x[0]), x[1]])`: same length and order, contexts unchanged. */
  function TypedLibActions(libName: string, appName: Value, libActions: seq<(string, Value)>)
    : (r: Result<seq<(string, Value)>, string>)
    ensures r.Success? <==> libActions == [] || appName.Str?
    ensures r.Success? ==> |r.value| == |libActions|
    ensures r.Success? ==> forall i :: 0 <= i < |libActions| ==>
      && r.value[i].0 == ActionTypePrefix(libName, appName.s) + CleanActionName(libActions[i].0)
      && r.value[i].1 == libActions[i].1
  {
    if libActions == [] then Success([])
    else if !appName.Str? then Failure("TypeError: appName.toUpperCase is not a function")
    else Success(seq(|libActions|, i requires 0 <= i < |libActions| =>
                   (CreateActionType(libName, appName, libActions[i].0).value, libActions[i].1)))
  }

  /** `getLibActionContextByOrdinal(ordinal)`: `libActions[ordinal][1]`; outside the array this throws a TypeError. */
  function GetLibActionContextByOrdinal(libActions: seq<(string, Value)>, ordinal: int): (r: Result<Value, string>)
    ensures r.Success? <==> 0 <= ordinal < |libActions|
    ensures r.Success? ==> r.value == libActions[ordinal].1
  {
    if 0 <= ordinal < |libActions| then Success(libActions[ordinal].1)
    else Failure("TypeError: libActions[ordinal] is undefined")
  }

  /**
   * The ordinal lookup and the name lookup in `libActionMap` agree for an action
   * whose name no later action reuses.
   */
  lemma OrdinalAgreesWithMap(libActions: seq<(string, Value)>, ordinal: nat)
    requires ordinal < |libActions|
    requires forall j :: ordinal < j < |libActions| ==> libActions[j].0 != libActions[ordinal].0
    ensures FirstComponents(libActions)[ordinal] in MapFromEntries(libActions)
    ensures GetLibActionContextByOrdinal(libActions, ordinal)
         == Success(MapFromEntries(libActions)[FirstComponents(libActions)[ordinal]])
  {
    MapFromEntriesLastWins(libActions, ordinal);
  }

  /** The library options; the three hooks are the caller's functions. `validateContext` answering false stands for it throwing. */
  datatype LibOpts = LibOpts(
    libName: string,
    libActions: seq<(string, Value)>,
    validateContext: (Record, Record) -> bool,
    configureAppContext: (Record, Record) -> Record,
    configureInitialState: (Record, Record) -> Value)

  function ActionPairs(actions: seq<(string, Value)>): Value {
    Arr(seq(|actions|, i requires 0 <= i < |actions| => Arr([Str(actions[i].0), actions[i].1])))
  }

  function Strings(s: seq<string>): Value {
    Arr(seq(|s|, i requires 0 <= i < |s| => Str(s[i])))
  }

  /** The options as the JavaScript object the validator receives. */
  function LibOptsValue(opts: LibOpts): Value {
    Obj(map[
      "libName" := Str(opts.libName),
      "libActions" := ActionPairs(opts.libActions),
      "validateContext" := Fn("validateContext"),
      "configureAppContext" := Fn("configureAppContext"),
      "configureInitialState" := Fn("configureInitialState")])
  }

  /** What `validateLibOpts` demands of its argument. */
  ghost predicate LibOptsWellFormed(raw: Value) {
    && Truthy(raw)
    && Member(raw, "libName").Str? && Member(raw, "libName").s != ""
    && Member(raw, "libActions").Arr?
    && (forall i :: 0 <= i < |Member(raw, "libActions").elems| ==> ActionItem(Member(raw, "libActions").elems[i]))
    && Member(raw, "validateContext").Fn?
    && Member(raw, "configureAppContext").Fn?
    && Member(raw, "configureInitialState").Fn?
  }

  /** An item of `libActions` as `validateLibOpts` wants it: `[<string name>, <object context>]`. */
  predicate ActionItem(x: Value) {
    x.Arr? && |x.elems| == 2 && x.elems[0].Str? && TypeOf(x.elems[1]) == "object"
  }

  predicate AllArrays(xs: seq<Value>) {
    forall i :: 0 <= i < |xs| ==> xs[i].Arr?
  }

  /** The item assertions of `validateLibOpts`, over every item of `libActions` in turn. */
  function ActionItemsError(items: seq<Value>): (r: Option<string>)
    ensures r.None? <==> forall i :: 0 <= i < |items| ==> ActionItem(items[i])
  {
    if !AllArrays(items) then Some("libActions must be an array of an array")
    else if exists i :: 0 <= i < |items| && |items[i].elems| != 2 then
      Some("every item in libActions must have length 2")
    else if exists i :: 0 <= i < |items| && !items[i].elems[0].Str? then
      Some("every item in libActions must have first ordinal type string action name")
    else if exists i :: 0 <= i < |items| && TypeOf(items[i].elems[1]) != "object" then
      Some("every item in libActions must have second ordinal type object actionContext")
    else None
  }

  /** `validateLibOpts(libOptsRaw)`: `None` when every assertion holds, otherwise the message of the first that fails. */
  function ValidateLibOpts(raw: Value): (r: Option<string>)
    ensures r.None? <==> LibOptsWellFormed(raw)
  {
    if !Truthy(raw) then Some("libOpts definition is required")
    else
      var libName := Member(raw, "libName");
      var libActions := Member(raw, "libActions");
      if !libName.Str? then Some("libName must be a string")
      else if libName.s == "" then Some("libName must not be empty")
      else if !Truthy(libActions) then Some("libActions must exist")
      else if !libActions.Arr? then Some("libActions must be an array")
      else if ActionItemsError(libActions.elems).Some? then ActionItemsError(libActions.elems)
      else if !Truthy(Member(raw, "validateContext")) then Some("validateContext must exist")
      else if !Member(raw, "validateContext").Fn? then Some("validateContext must be a function")
      else if !Truthy(Member(raw, "configureAppContext")) then Some("configureAppContext must exist")
      else if !Member(raw, "configureAppContext").Fn? then Some("configureAppContext must be a function")
      else if !Truthy(Member(raw, "configureInitialState")) then Some("configureInitialState must exist")
      else if !Member(raw, "configureInitialState").Fn? then Some("configureInitialState must be a function")
      else None
  }

  /**
   * For options of the typed shape, validation comes down to a non-empty
   * `libName` and every action context having `typeof` "object" (which
   * includes `null` and arrays).
   */
  lemma TypedLibOptsValidation(opts: LibOpts)
    ensures ValidateLibOpts(LibOptsValue(opts)).None? <==>
      opts.libName != "" && forall i :: 0 <= i < |opts.libActions| ==> TypeOf(opts.libActions[i].1) == "object"
  {
    var raw := LibOptsValue(opts);
    var elems := Member(raw, "libActions").elems;
    assert |elems| == |opts.libActions|;
    assert forall i :: 0 <= i < |elems| ==> elems[i] == Arr([Str(opts.libActions[i].0), opts.libActions[i].1]);
    if opts.libName != "" && forall i :: 0 <= i < |opts.libActions| ==> TypeOf(opts.libActions[i].1) == "object" {
      assert LibOptsWellFormed(raw);
    }
    if LibOptsWellFormed(raw) {
      forall i | 0 <= i < |opts.libActions| ensures TypeOf(opts.libActions[i].1) == "object" {
        assert ActionItem(elems[i]);
      }
    }
  }

  /** `validateAppOpts(appOptsRaw)`: the options must be truthy and `appName` a non-empty string. */
  function ValidateAppOpts(raw: Value): (r: Option<string>)
    ensures r.None? <==> Truthy(raw) && Member(raw, "appName").Str? && Member(raw, "appName").s != ""
  {
    if !Truthy(raw) then Some("appOpts are required")
    else if !Member(raw, "appName").Str? then Some("appName opt must be a string")
    else if Member(raw, "appName").s == "" then Some("appName opt must not be empty")
    else None
  }

  datatype NormalizedLibOpts = NormalizedLibOpts(
    libName: string,
    libActions: seq<(string, Value)>,
    libActionMap: map<string, Value>,
    libActionNames: seq<string>)

  /** `normalizeLibOpts`: validates outside production, then derives the action map and the ordered action names. */
  function NormalizeLibOpts(production: bool, opts: LibOpts): (r: Result<NormalizedLibOpts, string>)
    ensures r.Failure? <==> !production && !LibOptsWellFormed(LibOptsValue(opts))
    ensures r.Success? ==> r.value.libName == opts.libName && r.value.libActions == opts.libActions
    ensures r.Success? ==> r.value.libActionNames == FirstComponents(opts.libActions)
    ensures r.Success? ==> r.value.libActionMap == MapFromEntries(opts.libActions)
    ensures r.Success? ==> r.value.libActionMap.Keys == set i | 0 <= i < |opts.libActions| :: opts.libActions[i].0
  {
    var invalid := ValidateLibOpts(LibOptsValue(opts));
    if !production && invalid.Some? then Failure(invalid.value)
    else Success(NormalizedLibOpts(opts.libName, opts.libActions, MapFromEntries(opts.libActions),
                                   FirstComponents(opts.libActions)))
  }

  /** `normalizeAppOpts`: validates outside production, then copies the options. */
  function NormalizeAppOpts(production: bool, appOpts: Record): (r: Result<Record, string>)
    ensures r.Failure? <==> !production && !(Get(appOpts, "appName").Str? && Get(appOpts, "appName").s != "")
    ensures r.Success? ==> r.value == appOpts
  {
    var invalid := ValidateAppOpts(Obj(appOpts));
    if !production && invalid.Some? then Failure(invalid.value) else Success(appOpts)
  }

  datatype LibContext = LibContext(
    libName: string,
    libActions: seq<(string, Value)>,
    libActionMap: map<string, Value>,
    libActionNames: seq<string>,
    appName: Value,
    typedLibActions: seq<(string, Value)>,
    libActionTypes: seq<string>)

  /** The `libContext` object handed to the hooks. */
  function LibContextRecord(c: LibContext): (r: Record)
    ensures "initialState" !in r
  {
    map[
      "libName" := Str(c.libName),
      "libActions" := ActionPairs(c.libActions),
      "libActionMap" := Obj(c.libActionMap),
      "libActionNames" := Strings(c.libActionNames),
      "appName" := c.appName,
      "createActionType" := Fn("createActionType"),
      "typedLibActions" := ActionPairs(c.typedLibActions),
      "libActionTypes" := Strings(c.libActionTypes),
      "getActionContextByName" := Fn("getActionContextByName"),
      "getActionContextByType" := Fn("getActionContextByType"),
      "getLibActionContextByOrdinal" := Fn("getLibActionContextByOrdinal")]
  }

  /**
   * The library context of `configureContext(libOpts)(appOpts)`, or the error
   * thrown on the way to it. It is built exactly when validation passes (or is
   * skipped in production) and `createActionType` can run; its typed actions
   * follow `libActions` one for one and its action types are their first
   * components.
   */
  function LibContextOf(production: bool, opts: LibOpts, appOpts: Record): (r: Result<LibContext, string>)
    ensures r.Success? <==>
      && (production || (LibOptsWellFormed(LibOptsValue(opts)) && Get(appOpts, "appName").Str? && Get(appOpts, "appName").s != ""))
      && (opts.libActions == [] || Get(appOpts, "appName").Str?)
    ensures r.Success? ==>
      var c := r.value;
      && c.appName == Get(appOpts, "appName")
      && c.libActionMap == MapFromEntries(opts.libActions)
      && c.libActionNames == FirstComponents(opts.libActions)
      && |c.typedLibActions| == |opts.libActions| == |c.libActionTypes|
      && forall i :: 0 <= i < |opts.libActions| ==>
           && c.typedLibActions[i] == (ActionTypePrefix(opts.libName, c.appName.s) + CleanActionName(opts.libActions[i].0), opts.libActions[i].1)
           && c.libActionTypes[i] == c.typedLibActions[i].0
  {
    var lib :- NormalizeLibOpts(production, opts);
    var app :- NormalizeAppOpts(production, appOpts);
    var appName := Get(app, "appName");
    var typed :- TypedLibActions(lib.libName, appName, lib.libActions);
    Success(LibContext(lib.libName, lib.libActions, lib.libActionMap, lib.libActionNames, appName,
                       typed, FirstComponents(typed)))
  }

  /**
   * `configureContext(libOpts)(appOpts)`: `Object.assign(appContext, libContext, { initialState })`.
   * The assignment reads the `initialState` getter once, with `appContext`
   * already holding the library fields.
   */
  function ConfigureContext(production: bool, opts: LibOpts, appOpts: Record): (r: Result<Record, string>)
    ensures r.Success? ==> LibContextOf(production, opts, appOpts).Success?
    ensures r.Success? ==>
      var lc := LibContextRecord(LibContextOf(production, opts, appOpts).value);
      var appContext := opts.configureAppContext(lc, appOpts);
      && (production || opts.validateContext(lc, appContext))
      && r.value.Keys == appContext.Keys + lc.Keys + {"initialState"}
      && (forall k :: k in lc ==> r.value[k] == lc[k])
      && (forall k :: k in appContext && k !in lc && k != "initialState" ==> r.value[k] == appContext[k])
      && r.value["initialState"] == opts.configureInitialState(lc, appContext + lc)
    ensures LibContextOf(production, opts, appOpts).Success? && r.Failure? ==>
      var lc := LibContextRecord(LibContextOf(production, opts, appOpts).value);
      !production && !opts.validateContext(lc, opts.configureAppContext(lc, appOpts))
  {
    var libContext :- LibContextOf(production, opts, appOpts);
    var lc := LibContextRecord(libContext);
    var appContext := opts.configureAppContext(lc, appOpts);
    if !production && !opts.validateContext(lc, appContext) then Failure("context validation failed")
    else
      var merged := appContext + lc;
      var withInitial := merged["initialState" := opts.configureInitialState(lc, merged)];
      assert forall k :: k in lc ==> withInitial[k] == lc[k];
      Success(withInitial)
  }
}
