/// The chainable request every load, save and collection returns: a queue of
/// stages ("modifiers") run in registration order, a replaceable final ready
/// handler, a replaceable error handler, forwarding into another request, and
/// the `preload` stage that joins associated models into the delivered data.
///
/// Handlers are code of the caller; they are named by tags, and the methods
/// below return the step the request takes next (run this stage, call that
/// handler, continue in that request) instead of calling it.
module Requests {
  import opened Js
  import opened Schema

  /// A queued modifier: caller code, or the stage `preload` adds.
  datatype Stage =
    | Custom(tag: nat)
    | PreloadStage(field: string, assignTo: string, owner: Value)

  /// What `ready(fn)` registered: a function, or a request's `_ready` bound to it.
  datatype ReadyHandler = ReadyFn(tag: nat) | ReadyInto(target: ModelRequest)

  /// The function held in `_error`:
  ///  - the prototype's default, which keeps the error for a later `error(fn)`;
  ///  - a caller function;
  ///  - the forwarder `error(request)` installs, which calls `request._error`
  ///    as it is at call time;
  ///  - a function bound to `target` (`request._error.bind(request)`), whose
  ///    code is the `_error` that request held when it was bound.
  datatype ErrorHandler =
    | DefaultStore
    | Callback(tag: nat)
    | Forward(target: ModelRequest)
    | Bound(target: ModelRequest, captured: ErrorHandler)

  /// What `_ready(data)` does next.
  datatype ReadyStep =
    | RunStage(stage: Stage, data: Value)        // the oldest modifier is called with the data
    | Final(tag: nat, data: Value)               // the final ready handler receives the data
    | ReadyForward(target: ModelRequest, data: Value) // `target._ready(data)` continues
    | Logged                                     // no handler: a console message, nothing delivered

  /// What calling an error function does next.
  datatype ErrorStep =
    | StoreOn(request: ModelRequest) // the default `_error` ran with `request` as `this`
    | StoreOnGlobal                  // the default `_error` ran unbound: the error is lost
    | CallBack(tag: nat)             // a caller function receives the error
    | ContinueAt(target: ModelRequest) // `target._error(err)` continues
    | NotAFunction                   // a request object was called as a function: TypeError

  /// What `error(fn)` returns: the request itself, or, once an error was kept,
  /// nothing (undefined) after `fn` was called at once.
  datatype Registration = Chained(self: ModelRequest) | CalledNow(step: ErrorStep, err: Error)

  /// The code that runs when `h` is called with `receiver` as `this`. A bound
  /// function ignores the receiver.
  function Invoke(h: ErrorHandler, receiver: Option<ModelRequest>): ErrorStep {
    match h
    case DefaultStore => if receiver.Some? then StoreOn(receiver.value) else StoreOnGlobal
    case Callback(tag) => CallBack(tag)
    case Forward(t) => ContinueAt(t)
    case Bound(t, c) => Invoke(c, Some(t))
  }

  /// `fn(err)` as a plain call, which is how a kept error reaches a handler
  /// registered later. A request object is not callable.
  function CallPlain(h: ErrorHandler): ErrorStep {
    if h.Forward? then NotAFunction else Invoke(h, None)
  }

  function FinalStep(h: Option<ReadyHandler>, data: Value): ReadyStep {
    match h
    case None => Logged
    case Some(ReadyFn(tag)) => Final(tag, data)
    case Some(ReadyInto(t)) => ReadyForward(t, data)
  }

  /// The data the request hands on once every stage in `stages` ran, in order,
  /// starting from `data`; the first stage that fails ends the chain.
  function RunAll(stages: seq<Stage>, data: Value, apply: (Stage, Value) -> Result<Value>): Result<Value> {
    if stages == [] then Ok(data)
    else match apply(stages[0], data)
      case Ok(next) => RunAll(stages[1..], next, apply)
      case Err(e) => Err(e)
  }

  /// Queuing more stages runs them after the ones already queued.
  lemma {:induction false} RunAllAppend(a: seq<Stage>, b: seq<Stage>, data: Value, apply: (Stage, Value) -> Result<Value>)
    ensures RunAll(a + b, data, apply) ==
      match RunAll(a, data, apply)
      case Ok(v) => RunAll(b, v, apply)
      case Err(e) => Err(e)
  {
    if a != [] {
      assert (a + b)[0] == a[0] && (a + b)[1..] == a[1..] + b;
      match apply(a[0], data)
      case Ok(next) => RunAllAppend(a[1..], b, next, apply);
      case Err(_) =>
    } else {
      assert a + b == b;
    }
  }

  /// `preload(field)` reads its configuration from the definition before
  /// queuing anything; each of these throws.
  function PreloadConfig(def: Definition, field: string): (r: Result<(string, Value)>)
    ensures r.Ok? <==> field in def.fields && def.fields[field].assignTo.Str? && TypeofObject(def.fields[field].modelModule)
    ensures r.Ok? ==> r.value == (def.fields[field].assignTo.s, def.fields[field].modelModule)
  {
    if field !in def.fields then Err(Raised("The field " + field + " is not part of the model definition"))
    else if !def.fields[field].assignTo.Str? then Err(Raised("Any preloaded objects must have an assign_to field in their definition"))
    else if !TypeofObject(def.fields[field].modelModule) then Err(Raised("Any preloaded objects must have a model field in their definition"))
    else Ok((def.fields[field].assignTo.s, def.fields[field].modelModule))
  }

  class ModelRequest {
    const definition: Definition
    var modifiers: seq<Stage>
    var finalReady: Option<ReadyHandler>
    var errorHandler: ErrorHandler
    var kept: Option<Error>          // set once the default `_error` ran: `error(fn)` then calls `fn` at once
    var validationError: Option<nat>

    constructor (def: Definition)
      ensures definition == def && modifiers == [] && finalReady == None
      ensures errorHandler == DefaultStore && kept == None && validationError == None
    {
      definition, modifiers, finalReady := def, [], None;
      errorHandler, kept, validationError := DefaultStore, None, None;
    }

    /// `_ready(data)`: the oldest queued stage is taken off the queue and
    /// receives the data; only with no stage left does the final handler.
    method Deliver(data: Value) returns (step: ReadyStep)
      modifies this`modifiers
      ensures old(modifiers) != [] ==> step == RunStage(old(modifiers)[0], data) && modifiers == old(modifiers)[1..]
      ensures old(modifiers) == [] ==> step == FinalStep(finalReady, data) && modifiers == []
      ensures step == Logged <==> old(modifiers) == [] && finalReady.None?
    {
      if |modifiers| > 0 {
        step := RunStage(modifiers[0], data);
        modifiers := modifiers[1..];
      } else {
        step := FinalStep(finalReady, data);
      }
    }

    /// `_error(err)`: the current error function runs with this request as
    /// `this`; when that is the default, the error is kept here.
    method Fail(err: Error) returns (step: ErrorStep)
      modifies this`kept
      ensures step == Invoke(errorHandler, Some(this))
      ensures kept == if step == StoreOn(this) then Some(err) else old(kept)
    {
      step := Invoke(errorHandler, Some(this));
      if step == StoreOn(this) {
        kept := Some(err);
      }
    }

    /// The default `_error` run with this request as `this` by a function
    /// bound to it elsewhere.
    method Keep(err: Error)
      modifies this`kept
      ensures kept == Some(err)
    {
      kept := Some(err);
    }

    /// `ready(fn)`: the last registration wins.
    method OnReady(h: Option<ReadyHandler>) returns (self: ModelRequest)
      modifies this`finalReady
      ensures finalReady == h && self == this
    {
      finalReady := h;
      self := this;
    }

    /// `error(fn)`: replaces the error function and returns the request;
    /// once an error was kept, calls `fn` with it instead and returns nothing.
    method OnError(h: ErrorHandler) returns (r: Registration)
      modifies this`errorHandler
      ensures kept.None? ==> errorHandler == h && r == Chained(this)
      ensures kept.Some? ==> errorHandler == old(errorHandler) && r == CalledNow(CallPlain(h), kept.value)
    {
      if kept.Some? {
        r := CalledNow(CallPlain(h), kept.value);
      } else {
        errorHandler := h;
        r := Chained(this);
      }
    }

    method OnValidationError(tag: Option<nat>) returns (self: ModelRequest)
      modifies this`validationError
      ensures validationError == tag && self == this
    {
      validationError := tag;
      self := this;
    }

    /// `addModifier(fn)` appends to the queue.
    method AddModifier(s: Stage) returns (self: ModelRequest)
      modifies this`modifiers
      ensures modifiers == old(modifiers) + [s] && self == this
    {
      modifiers := modifiers + [s];
      self := this;
    }

    /// `bindRequest(target)`: this request's errors go to the error function
    /// `target` holds now, run as `target`, and its final data to
    /// `target._ready`, so `target`'s own queued stages still run. When an
    /// error was already kept here, it is handed over at once.
    method BindRequest(target: ModelRequest) returns (now: Option<ErrorStep>)
      modifies this`errorHandler, this`finalReady
      ensures finalReady == Some(ReadyInto(target))
      ensures kept.None? ==> errorHandler == Bound(target, old(target.errorHandler)) && now == None
      ensures kept.Some? ==> errorHandler == old(errorHandler) && now == Some(Invoke(old(target.errorHandler), Some(target)))
    {
      var r := OnError(Bound(target, target.errorHandler));
      now := if r.CalledNow? then Some(r.step) else None;
      var _ := OnReady(Some(ReadyInto(target)));
    }

    /// `preload(field)`: checks the field's association metadata, then
    /// queues the join stage and returns the request.
    method Preload(field: string) returns (r: Result<ModelRequest>)
      modifies this`modifiers
      ensures r.Err? <==> PreloadConfig(definition, field).Err?
      ensures r.Err? ==> modifiers == old(modifiers) && r.error == PreloadConfig(definition, field).error
      ensures r.Ok? ==>
        r.value == this &&
        var (assignTo, owner) := PreloadConfig(definition, field).value;
        modifiers == old(modifiers) + [PreloadStage(field, assignTo, owner)]
    {
      var cfg := PreloadConfig(definition, field);
      if cfg.Err? {
        return Err(cfg.error);
      }
      var self := AddModifier(PreloadStage(field, cfg.value.0, cfg.value.1));
      r := Ok(self);
    }

    /// The request driven to its end: every `_ready` call hands the data to
    /// the next stage, `apply` says what the stage hands back, and the final
    /// step follows once the queue is empty. A stage that fails stops the
    /// chain and leaves the later stages queued.
    method Run(data: Value, apply: (Stage, Value) -> Result<Value>) returns (r: Result<Value>, last: ReadyStep)
      modifies this`modifiers
      ensures r == RunAll(old(modifiers), data, apply)
      ensures r.Ok? ==> modifiers == [] && last == FinalStep(finalReady, r.value)
      ensures r.Err? ==> exists k :: 0 < k <= |old(modifiers)| && modifiers == old(modifiers)[k..]
    {
      var d := data;
      var k := 0;
      while true
        invariant 0 <= k <= |old(modifiers)| && modifiers == old(modifiers)[k..]
        invariant RunAll(old(modifiers), data, apply) == RunAll(modifiers, d, apply)
        decreases |modifiers|
      {
        var step := Deliver(d);
        if !step.RunStage? {
          return Ok(d), step;
        }
        k := k + 1;
        var out := apply(step.stage, d);
        if out.Err? {
          return out, step;
        }
        d := out.value;
      }
    }
  }

  // ----- the preload stage -----

  /// The ids the stage asks for when `data` is a list: `data[i][field]`, in
  /// list order. Reading a property of a null or undefined element throws.
  method CollectIds(items: seq<Value>, field: string) returns (r: Result<seq<Value>>)
    ensures r.Ok? <==> forall i :: 0 <= i < |items| ==> !IsNullish(items[i])
    ensures r.Ok? ==> |r.value| == |items| && forall i :: 0 <= i < |items| ==> r.value[i] == Get(items[i], field)
  {
    var ids: seq<Value> := [];
    var i := 0;
    while i < |items|
      invariant 0 <= i <= |items| && |ids| == i
      invariant forall j :: 0 <= j < i ==> !IsNullish(items[j]) && ids[j] == Get(items[j], field)
    {
      var p := Prop(items[i], field);
      if p.Err? {
        return Err(p.error);
      }
      ids := ids + [p.value];
      i := i + 1;
    }
    r := Ok(ids);
  }

  /// The text a loaded model is indexed under: its `id` as a property key.
  function AssocKey(m: Value): string {
    ToStr(Get(m, "id"))
  }

  /// `model_associations` after the first loop: every truthy loaded model
  /// under its id; a later model with the same id replaces an earlier one.
  function AssocIndex(models: seq<Value>): map<string, Value>
    decreases |models|
  {
    if models == [] then map[]
    else
      var prev := AssocIndex(models[..|models| - 1]);
      var m := models[|models| - 1];
      if Truthy(m) then prev[AssocKey(m) := m] else prev
  }

  /// The model joined to `v`: the one indexed under `v[field]`, else null.
  function Associated(index: map<string, Value>, v: Value, field: string): Value {
    var k := ToStr(Get(v, field));
    if k in index then index[k] else Null
  }

  /// `data[i][assign_to] = ...` on one element; assigning a property of a
  /// primitive has no effect outside strict mode.
  function AttachOne(index: map<string, Value>, v: Value, field: string, assignTo: string): Value {
    if v.Obj? then Obj(v.props[assignTo := Associated(index, v, field)]) else v
  }

  /// Every model in the index is a truthy loaded model filed under its own id.
  lemma {:induction false} AssocIndexSound(models: seq<Value>, k: string)
    requires k in AssocIndex(models)
    ensures exists i :: 0 <= i < |models| && Truthy(models[i]) && AssocKey(models[i]) == k && AssocIndex(models)[k] == models[i]
    decreases |models|
  {
    var init := models[..|models| - 1];
    var m := models[|models| - 1];
    if Truthy(m) && AssocKey(m) == k {
      assert models[|models| - 1] == m;
    } else {
      AssocIndexSound(init, k);
      var i :| 0 <= i < |init| && Truthy(init[i]) && AssocKey(init[i]) == k && AssocIndex(init)[k] == init[i];
      assert models[i] == init[i];
    }
  }

  /// Every truthy loaded model is indexed; among models sharing an id, the
  /// last one wins.
  lemma {:induction false} AssocIndexLastWins(models: seq<Value>, i: nat)
    requires i < |models| && Truthy(models[i])
    requires forall j :: i < j < |models| && Truthy(models[j]) ==> AssocKey(models[j]) != AssocKey(models[i])
    ensures AssocKey(models[i]) in AssocIndex(models) && AssocIndex(models)[AssocKey(models[i])] == models[i]
    decreases |models|
  {
    if i < |models| - 1 {
      var init := models[..|models| - 1];
      assert init[i] == models[i];
      forall j | i < j < |init| && Truthy(init[j])
        ensures AssocKey(init[j]) != AssocKey(init[i])
      {
        assert init[j] == models[j];
      }
      AssocIndexLastWins(init, i);
    }
  }

  /// A dangling id is not an error: an element whose field names no loaded
  /// model is joined to null.
  lemma DanglingJoinsNull(models: seq<Value>, v: Value, field: string)
    requires forall i :: 0 <= i < |models| && Truthy(models[i]) ==> AssocKey(models[i]) != ToStr(Get(v, field))
    ensures Associated(AssocIndex(models), v, field) == Null
  {
    if ToStr(Get(v, field)) in AssocIndex(models) {
      AssocIndexSound(models, ToStr(Get(v, field)));
    }
  }

  /// The stage's ready callback: a single loaded value is assigned directly;
  /// a loaded list is indexed by id and every element of the data list is
  /// joined to its model, or to null. The data keeps its shape and order.
  method Attach(data: Value, field: string, assignTo: string, models: Value) returns (r: Value)
    requires data.Arr? ==> forall i :: 0 <= i < |data.items| ==> !IsNullish(data.items[i])
    ensures !models.Arr? ==> r == if data.Obj? then Obj(data.props[assignTo := models]) else data
    ensures models.Arr? && !data.Arr? ==> r == data
    ensures models.Arr? && data.Arr? ==>
      r.Arr? && |r.items| == |data.items| &&
      forall i :: 0 <= i < |data.items| ==> r.items[i] == AttachOne(AssocIndex(models.items), data.items[i], field, assignTo)
  {
    if !models.Arr? {
      return if data.Obj? then Obj(data.props[assignTo := models]) else data;
    }
    var index: map<string, Value> := map[];
    var i := 0;
    while i < |models.items|
      invariant 0 <= i <= |models.items| && index == AssocIndex(models.items[..i])
    {
      assert models.items[..i + 1][..i] == models.items[..i];
      if Truthy(models.items[i]) {
        index := index[AssocKey(models.items[i]) := models.items[i]];
      }
      i := i + 1;
    }
    assert models.items[..i] == models.items;
    if !data.Arr? {
      // `data.length` is undefined: the second loop does not run
      return data;
    }
    var out := data.items;
    i := 0;
    while i < |out|
      invariant 0 <= i <= |out| == |data.items|
      invariant forall j :: 0 <= j < i ==> out[j] == AttachOne(index, data.items[j], field, assignTo)
      invariant forall j :: i <= j < |out| ==> out[j] == data.items[j]
    {
      out := out[i := AttachOne(index, out[i], field, assignTo)];
      i := i + 1;
    }
    r := Arr(out);
  }

  /// What the stage does with the data it receives.
  datatype StageOutcome =
    | Next(data: Value)    // `_ready(data)`: the chain continues
    | Failed(err: Error)   // `_error(err)` on the request
    | Thrown(err: Error)   // an exception escapes the stage

  /// The preload stage. `load` is what the associated module's `load`
  /// delivers for the ids it is given; its errors are forwarded to this
  /// request.
  method RunPreload(data: Value, field: string, assignTo: string, owner: Value, load: Value -> Result<Value>)
    returns (r: StageOutcome)
    ensures data.Null? ==> r == Next(Null)
    ensures !data.Null? && !data.Arr? && !data.Obj? ==>
      r == Failed(Raised("Invalid data provided to the preload addModifier callback"))
    ensures data.Arr? && (exists i :: 0 <= i < |data.items| && IsNullish(data.items[i])) ==> r.Thrown?
    ensures (data.Obj? || (data.Arr? && forall i :: 0 <= i < |data.items| ==> !IsNullish(data.items[i]))) ==>
      var ids := if data.Obj? then Get(data, field) else Arr(seq(|data.items|, i requires 0 <= i < |data.items| => Get(data.items[i], field)));
      if !owner.Obj? then r.Thrown?
      else if load(ids).Err? then r == Failed(load(ids).error)
      else r.Next? && (data.Arr? ==> r.data.Arr? && |r.data.items| == |data.items|)
  {
    var ids: Value;
    if data.Null? {
      return Next(Null);
    } else if !data.Arr? {
      if data.Obj? {
        ids := Get(data, field);
      } else {
        return Failed(Raised("Invalid data provided to the preload addModifier callback"));
      }
    } else {
      var collected := CollectIds(data.items, field);
      if collected.Err? {
        return Thrown(collected.error);
      }
      assert collected.value == seq(|data.items|, i requires 0 <= i < |data.items| => Get(data.items[i], field));
      ids := Arr(collected.value);
    }
    if !owner.Obj? {
      return Thrown(Raised("TypeError: model_module.load is not a function"));
    }
    var loaded := load(ids);
    if loaded.Err? {
      return Failed(loaded.error);
    }
    var joined := Attach(data, field, assignTo, loaded.value);
    r := Next(joined);
  }

  // ----- scenarios the request promises -----

  /// An error raised before any handler is registered is kept, and the
  /// handler registered afterwards receives it at once.
  method ErrorBeforeHandler(def: Definition, err: Error, tag: nat) returns (reg: Registration)
    ensures reg == CalledNow(CallBack(tag), err)
  {
    var req := new ModelRequest(def);
    var step := req.Fail(err);
    reg := req.OnError(Callback(tag));
  }

  /// Once a handler is registered, errors go to it and nothing is kept.
  method ErrorAfterHandler(def: Definition, err: Error, tag: nat) returns (step: ErrorStep, kept: Option<Error>)
    ensures step == CallBack(tag) && kept == None
  {
    var req := new ModelRequest(def);
    var reg := req.OnError(Callback(tag));
    step := req.Fail(err);
    kept := req.kept;
  }

  /// Passing a request to `error` forwards errors to that request's `_error`.
  method ErrorIntoRequest(def: Definition, err: Error, tag: nat) returns (first: ErrorStep, second: ErrorStep)
    ensures first.ContinueAt? && second == CallBack(tag)
  {
    var outer := new ModelRequest(def);
    var inner := new ModelRequest(def);
    var _ := outer.OnError(Callback(tag));
    var reg := inner.OnError(Forward(outer));
    first := inner.Fail(err);
    second := first.target.Fail(err);
  }

  /// After `inner.bindRequest(outer)`, data delivered by `inner` passes
  /// through `outer`'s own stages before `outer`'s final handler, and an
  /// error of `inner` is kept by `outer` when `outer` had no handler yet.
  method BoundRequestChain(def: Definition, s: Stage, data: Value, err: Error, tag: nat)
    returns (a: ReadyStep, b: ReadyStep, c: ReadyStep, e: ErrorStep, late: Registration)
    ensures a.ReadyForward? && b == RunStage(s, data) && c == Final(tag, data)
    ensures e.StoreOn? && late == CalledNow(CallBack(tag), err)
  {
    var outer := new ModelRequest(def);
    var inner := new ModelRequest(def);
    var _ := outer.AddModifier(s);
    var _ := outer.OnReady(Some(ReadyFn(tag)));
    var now := inner.BindRequest(outer);
    a := inner.Deliver(data);
    b := a.target.Deliver(data);
    c := a.target.Deliver(data);
    e := inner.Fail(err);
    e.request.Keep(err);
    late := outer.OnError(Callback(tag));
  }
}
