/** `useStates` and the two readers built on it, `useValue` and `useLoadable`: the per-value
    transforms, the map over the normalized states (as a specification and as the loop that
    fills the consumer's context), and the result a caller gets back. */
module Readers {
  import opened Basics
  import opened Loadables
  import opened StateInputs
  import opened FreezeScopes

  datatype Reader = ValueReader | LoadableReader

  /** One element of the mapped result: a value (useValue) or a loadable snapshot (useLoadable). */
  datatype Out = Val(value: Value) | Snap(loadable: Loadable)

  /** What a transform returns for one value, and the still-loading promise it collected
      (useValue) or registered a listener on (useLoadable), if any. */
  datatype Emitted = Emitted(out: Out, wait: Option<PromiseId>)

  /** A loading promise met at position `index` of the states. */
  datatype Pending = Pending(index: nat, promise: PromiseId)

  datatype Mapped = Mapped(outs: seq<Out>, pending: seq<Pending>)

  /** What `useStates` returns, and the loading promises its transform met. */
  datatype Rendered = Rendered(result: Shaped<Out>, pending: seq<Pending>)

  /** What a reader's caller sees: a result, a suspension carrying every loading promise
      (`throw Promise.all(promises)`), or an error. */
  datatype Read = Done(result: Shaped<Out>) | Suspend(promises: seq<PromiseId>) | Fail(failure: Failure)

  /** The transform of `useValue` or `useLoadable` applied to one value, once
      `enableLoadableLogic` has run on it; an `Err` is a thrown record error. */
  function Transform(reader: Reader, v: Value, records: map<PromiseId, Loadable>): (r: Result<Emitted, Payload>)
    ensures r.Err? ==> reader == ValueReader && v.Thenable? && Observe(records, v.promise) == HasError(r.error)
    ensures r.Ok? ==> (r.value.wait.Some? <==> v.Thenable? && Observe(records, v.promise) == Loading)
    ensures r.Ok? && r.value.wait.Some? ==> v == Thenable(r.value.wait.value)
    ensures reader == LoadableReader ==> r.Ok? && r.value.out.Snap?
    ensures reader == ValueReader && r.Ok? ==> r.value.out.Val?
  {
    match reader
    case ValueReader =>
      (match v
       case Plain(_) => Ok(Emitted(Val(v), None))
       case Thenable(p) =>
         match Observe(records, p)
         case Loading => Ok(Emitted(Val(v), Some(p)))
         case HasValue(x) => Ok(Emitted(Val(Plain(x)), None))
         case HasError(e) => Err(e)
         case Errored(_) => Ok(Emitted(Val(v), None)))
    case LoadableReader =>
      match v
      case Plain(x) => Ok(Emitted(Snap(HasValue(x)), None))
      case Thenable(p) =>
        var rec := Observe(records, p);
        Ok(Emitted(Snap(rec), if rec == Loading then Some(p) else None))
  }

  /** One element of the map: its api, its current value, and the transform of that value. */
  function ElementResult(reader: Reader, s: StateInput, index: nat, get: ApiId -> Value,
                         records: map<PromiseId, Loadable>): Result<Emitted, Failure>
  {
    match ApiOf(s)
    case None => Err(NotAState(index))
    case Some(a) =>
      match Transform(reader, get(a), records)
      case Err(e) => Err(Thrown(e))
      case Ok(e) => Ok(e)
  }

  /** One element of the map fails as "not a state" at its index exactly when it has no api.
      One with an api fails only when `useValue` meets a `'hasError'` record, and otherwise
      waits exactly on a loading promise. */
  lemma ElementResultCases(reader: Reader, s: StateInput, index: nat, get: ApiId -> Value,
                           records: map<PromiseId, Loadable>)
    ensures ElementResult(reader, s, index, get, records) == Err(NotAState(index)) <==> ApiOf(s).None?
    ensures ElementResult(reader, s, index, get, records).Err? && ApiOf(s).Some? ==>
      reader == ValueReader && get(s.api).Thenable? &&
      Observe(records, get(s.api).promise) == HasError(ElementResult(reader, s, index, get, records).error.error)
    ensures ElementResult(reader, s, index, get, records).Ok? ==>
      (ElementResult(reader, s, index, get, records).value.wait.Some? <==>
       get(s.api).Thenable? && Observe(records, get(s.api).promise) == Loading)
  {
  }

  /** `states.map(...)` with the reader's transform: elements are handled in order and the
      first one that throws ends the map. */
  function MapStates(reader: Reader, states: seq<StateInput>, get: ApiId -> Value,
                     records: map<PromiseId, Loadable>): (r: Result<Mapped, Failure>)
    ensures r.Ok? ==> |r.value.outs| == |states|
    ensures r.Ok? ==> forall k :: 0 <= k < |r.value.pending| ==> r.value.pending[k].index < |states|
    decreases |states|
  {
    if states == [] then Ok(Mapped([], []))
    else
      var i := |states| - 1;
      match MapStates(reader, states[..i], get, records)
      case Err(f) => Err(f)
      case Ok(m) =>
        match ElementResult(reader, states[i], i, get, records)
        case Err(f) => Err(f)
        case Ok(e) =>
          Ok(Mapped(m.outs + [e.out],
                    if e.wait.Some? then m.pending + [Pending(i, e.wait.value)] else m.pending))
  }

  /** `useStates`: classify the input, map it, and shape the result. An input that is neither
      a state nor an array fails before anything is read; an array gets a list back, a single
      state its one output. */
  function StatesSpec(reader: Reader, input: StateInput, get: ApiId -> Value,
                      records: map<PromiseId, Loadable>): (r: Result<Rendered, Failure>)
  {
    match Normalize(input)
    case Err(f) => Err(f)
    case Ok(n) =>
      match MapStates(reader, n.states, get, records)
      case Err(f) => Err(f)
      case Ok(m) => Ok(Rendered(Shape(n.isMultiple, m.outs), m.pending))
  }

  function PromisesOf(ps: seq<Pending>): (r: seq<PromiseId>)
    ensures |r| == |ps| && forall k :: 0 <= k < |ps| ==> r[k] == ps[k].promise
  {
    seq(|ps|, k requires 0 <= k < |ps| => ps[k].promise)
  }

  /** `useValue` suspends when any value is still loading; `useLoadable` never does. A read
      fails exactly when `useStates` throws, and a suspension waits on at least one promise. */
  function ReadSpec(reader: Reader, input: StateInput, get: ApiId -> Value,
                    records: map<PromiseId, Loadable>): (r: Read)
  {
    match StatesSpec(reader, input, get, records)
    case Err(f) => Fail(f)
    case Ok(rd) =>
      if reader == ValueReader && rd.pending != [] then Suspend(PromisesOf(rd.pending))
      else Done(rd.result)
  }

  // ---------------------------------------------------------------------------------------
  // Properties of the per-value rules and of the map

  /** The `useValue` rules: a plain value is returned unchanged; a fulfilled record yields its
      payload; a `'hasError'` record throws its error; a loading promise is returned and
      collected; a record in the `'error'` state matches no case and the promise itself is
      returned. */
  lemma ValueReaderRules(v: Value, records: map<PromiseId, Loadable>)
    ensures v.Plain? ==> Transform(ValueReader, v, records) == Ok(Emitted(Val(v), None))
    ensures v.Thenable? && Observe(records, v.promise).HasValue? ==>
      Transform(ValueReader, v, records) == Ok(Emitted(Val(Plain(Observe(records, v.promise).value)), None))
    ensures v.Thenable? && Observe(records, v.promise).HasError? ==>
      Transform(ValueReader, v, records) == Err(Observe(records, v.promise).error)
    ensures v.Thenable? && Observe(records, v.promise) == Loading ==>
      Transform(ValueReader, v, records) == Ok(Emitted(Val(v), Some(v.promise)))
    ensures v.Thenable? && Observe(records, v.promise).Errored? ==>
      Transform(ValueReader, v, records) == Ok(Emitted(Val(v), None))
  {
  }

  /** The `useLoadable` rules: a plain value becomes a `hasValue` snapshot of itself; a
      promise yields its own record (shared, not copied), and a listener is registered
      exactly when that record is still loading. */
  lemma LoadableReaderRules(v: Value, records: map<PromiseId, Loadable>)
    ensures v.Plain? ==> Transform(LoadableReader, v, records) == Ok(Emitted(Snap(HasValue(v.payload)), None))
    ensures v.Thenable? ==> Transform(LoadableReader, v, records).value.out == Snap(Observe(records, v.promise))
  {
  }

  /** The two readers wait on exactly the same promises, and a value `useLoadable` reports as
      `hasValue` is the one `useValue` returns. */
  lemma ReadersAgree(v: Value, records: map<PromiseId, Loadable>, x: Payload)
    ensures Transform(ValueReader, v, records).Ok? ==>
      Transform(ValueReader, v, records).value.wait == Transform(LoadableReader, v, records).value.wait
    ensures Transform(LoadableReader, v, records).value.out == Snap(HasValue(x)) ==>
      Transform(ValueReader, v, records) == Ok(Emitted(Val(Plain(x)), None))
  {
  }

  /** A rejected promise is stored under `'error'`, which `useValue` does not test for: the
      promise object itself is returned instead of its error being thrown, while
      `useLoadable` reports the `'error'` record. */
  lemma RejectedPromiseIsReturned(p: PromiseId, e: Payload, records: map<PromiseId, Loadable>)
    ensures Transform(ValueReader, Thenable(p), records[p := Settled(Rejected(e))]) ==
      Ok(Emitted(Val(Thenable(p)), None))
    ensures Transform(LoadableReader, Thenable(p), records[p := Settled(Rejected(e))]) ==
      Ok(Emitted(Snap(Errored(e)), None))
  {
  }

  /** A successful map has one output per state, in order, each the transform of that state's
      value. */
  lemma {:induction false} MapStatesOuts(reader: Reader, states: seq<StateInput>, get: ApiId -> Value,
                                         records: map<PromiseId, Loadable>, m: Mapped)
    requires MapStates(reader, states, get, records) == Ok(m)
    ensures forall i :: 0 <= i < |states| ==>
      ElementResult(reader, states[i], i, get, records).Ok? &&
      ElementResult(reader, states[i], i, get, records).value.out == m.outs[i]
    decreases |states|
  {
    if states != [] {
      var n := |states| - 1;
      var front := states[..n];
      var m' := MapStates(reader, front, get, records).value;
      MapStatesOuts(reader, front, get, records, m');
      forall i | 0 <= i < |states|
        ensures ElementResult(reader, states[i], i, get, records).Ok? &&
          ElementResult(reader, states[i], i, get, records).value.out == m.outs[i]
      {
        if i < n {
          assert front[i] == states[i];
        }
      }
    }
  }

  /** The promise element `i` waits on: set when the element could be read and its value is a
      loading promise. */
  function WaitAt(reader: Reader, states: seq<StateInput>, i: nat, get: ApiId -> Value,
                  records: map<PromiseId, Loadable>): (r: Option<PromiseId>)
    requires i < |states|
    ensures r.Some? ==> ElementResult(reader, states[i], i, get, records).Ok?
  {
    match ElementResult(reader, states[i], i, get, records)
    case Ok(e) => e.wait
    case Err(_) => None
  }

  /** Every entry of the pending list of a successful map is a loading element, and the
      entries are in increasing index order. */
  lemma {:induction false} MapStatesPendingSound(reader: Reader, states: seq<StateInput>, get: ApiId -> Value,
                                                 records: map<PromiseId, Loadable>, m: Mapped)
    requires MapStates(reader, states, get, records) == Ok(m)
    ensures forall k :: 0 <= k < |m.pending| ==>
      WaitAt(reader, states, m.pending[k].index, get, records) == Some(m.pending[k].promise)
    ensures forall k, l :: 0 <= k < l < |m.pending| ==> m.pending[k].index < m.pending[l].index
    decreases |states|
  {
    if states != [] {
      var n := |states| - 1;
      var front := states[..n];
      var m' := MapStates(reader, front, get, records).value;
      MapStatesPendingSound(reader, front, get, records, m');
      forall k | 0 <= k < |m'.pending|
        ensures states[m'.pending[k].index] == front[m'.pending[k].index]
      {
      }
    }
  }

  /** Every loading element of a successful map has an entry in the pending list. */
  lemma {:induction false} MapStatesPendingComplete(reader: Reader, states: seq<StateInput>, get: ApiId -> Value,
                                                    records: map<PromiseId, Loadable>, m: Mapped)
    requires MapStates(reader, states, get, records) == Ok(m)
    ensures forall i :: 0 <= i < |states| && WaitAt(reader, states, i, get, records).Some? ==>
      (exists k :: 0 <= k < |m.pending| && m.pending[k].index == i)
    decreases |states|
  {
    if states != [] {
      var n := |states| - 1;
      var front := states[..n];
      var m' := MapStates(reader, front, get, records).value;
      MapStatesPendingComplete(reader, front, get, records, m');
      forall i | 0 <= i < |states| && WaitAt(reader, states, i, get, records).Some?
        ensures exists k :: 0 <= k < |m.pending| && m.pending[k].index == i
      {
        if i < n {
          assert front[i] == states[i];
          assert WaitAt(reader, front, i, get, records).Some?;
          var k :| 0 <= k < |m'.pending| && m'.pending[k].index == i;
          assert m.pending[k] == m'.pending[k];
        } else {
          assert m.pending[|m.pending| - 1].index == i;
        }
      }
    }
  }

  /** A failed map failed at some element, and every element before it was handled. */
  lemma {:induction false} MapStatesFailure(reader: Reader, states: seq<StateInput>, get: ApiId -> Value,
                                            records: map<PromiseId, Loadable>, f: Failure)
    requires MapStates(reader, states, get, records) == Err(f)
    ensures exists i ::
      (0 <= i < |states| && ElementResult(reader, states[i], i, get, records) == Err(f) &&
       (forall j :: 0 <= j < i ==> ElementResult(reader, states[j], j, get, records).Ok?))
    decreases |states|
  {
    var n := |states| - 1;
    var front := states[..n];
    assert forall i :: 0 <= i < n ==> front[i] == states[i];
    match MapStates(reader, front, get, records)
    case Err(_) =>
      MapStatesFailure(reader, front, get, records, f);
      var i :| 0 <= i < |front| && ElementResult(reader, front[i], i, get, records) == Err(f) &&
        forall j :: 0 <= j < i ==> ElementResult(reader, front[j], j, get, records).Ok?;
      assert ElementResult(reader, states[i], i, get, records) == Err(f);
    case Ok(m') =>
      MapStatesOuts(reader, front, get, records, m');
      assert ElementResult(reader, states[n], n, get, records) == Err(f);
  }

  /** Once a prefix of the states fails, the whole map fails the same way. */
  lemma {:induction false} MapStatesPrefixFailure(reader: Reader, states: seq<StateInput>, k: nat,
                                                  get: ApiId -> Value, records: map<PromiseId, Loadable>)
    requires k <= |states| && MapStates(reader, states[..k], get, records).Err?
    ensures MapStates(reader, states, get, records) == MapStates(reader, states[..k], get, records)
    decreases |states| - k
  {
    if k < |states| {
      var front := states[..|states| - 1];
      assert front[..k] == states[..k];
      MapStatesPrefixFailure(reader, front, k, get, records);
    } else {
      assert states[..k] == states;
    }
  }

  /** The map over one more state extends the map over the states before it. */
  lemma MapStatesStep(reader: Reader, states: seq<StateInput>, i: nat, get: ApiId -> Value,
                      records: map<PromiseId, Loadable>, m: Mapped, e: Emitted)
    requires i < |states| && MapStates(reader, states[..i], get, records) == Ok(m)
    requires ElementResult(reader, states[i], i, get, records) == Ok(e)
    ensures MapStates(reader, states[..i + 1], get, records) ==
      Ok(Mapped(m.outs + [e.out], if e.wait.Some? then m.pending + [Pending(i, e.wait.value)] else m.pending))
  {
    assert states[..i + 1][..i] == states[..i];
  }

  /** The map over a single state is that state's transform. */
  lemma MapStatesSingle(reader: Reader, s: StateInput, get: ApiId -> Value, records: map<PromiseId, Loadable>)
    ensures MapStates(reader, [s], get, records) ==
      match ElementResult(reader, s, 0, get, records)
      case Err(f) => Err(f)
      case Ok(e) => Ok(Mapped([e.out], if e.wait.Some? then [Pending(0, e.wait.value)] else []))
  {
    assert [s][..0] == [];
    assert MapStates(reader, [s][..0], get, records) == Ok(Mapped([], []));
    match ElementResult(reader, s, 0, get, records)
    case Err(f) =>
    case Ok(e) =>
      assert [] + [e.out] == [e.out];
      assert e.wait.Some? ==> [] + [Pending(0, e.wait.value)] == [Pending(0, e.wait.value)];
  }

  /** An element that throws after a successful prefix is the map's failure. */
  lemma MapStatesStepFailure(reader: Reader, states: seq<StateInput>, i: nat, get: ApiId -> Value,
                             records: map<PromiseId, Loadable>, f: Failure)
    requires i < |states| && MapStates(reader, states[..i], get, records).Ok?
    requires ElementResult(reader, states[i], i, get, records) == Err(f)
    ensures MapStates(reader, states, get, records) == Err(f)
  {
    assert states[..i + 1][..i] == states[..i];
    MapStatesPrefixFailure(reader, states, i + 1, get, records);
  }

  /** `Transform` looks at a record only through what `enableLoadableLogic` leaves on the
      promise, so wrapping that promise first does not change its outcome. */
  lemma TransformAfterWrap(reader: Reader, v: Value, before: map<PromiseId, Loadable>,
                           after: map<PromiseId, Loadable>)
    requires v.Thenable? ==> Observe(after, v.promise) == Observe(before, v.promise)
    ensures Transform(reader, v, after) == Transform(reader, v, before)
  {
  }

  // ---------------------------------------------------------------------------------------
  // Properties of what a caller gets back

  /** An array input yields a list as long as the array, element by element; a single state
      or tuple yields its one output unwrapped. */
  lemma ReadShape(reader: Reader, input: StateInput, get: ApiId -> Value,
                  records: map<PromiseId, Loadable>, rd: Rendered)
    requires StatesSpec(reader, input, get, records) == Ok(rd)
    ensures input.List? ==>
      rd.result.Many? && |rd.result.items| == |input.items| &&
      forall i :: 0 <= i < |input.items| ==>
        ElementResult(reader, input.items[i], i, get, records).Ok? &&
        rd.result.items[i] == ElementResult(reader, input.items[i], i, get, records).value.out
    ensures !input.List? ==>
      ElementResult(reader, input, 0, get, records).Ok? &&
      rd.result == One(ElementResult(reader, input, 0, get, records).value.out)
  {
    var n := Normalize(input).value;
    MapStatesOuts(reader, n.states, get, records, MapStates(reader, n.states, get, records).value);
  }

  /** Reading one state, given alone or as a one-element array, yields its transform: unwrapped
      or in a list, with its promise pending if that is still loading. An untagged function is
      read only inside an array. */
  lemma StatesSpecOfOne(reader: Reader, s: StateInput, asList: bool, get: ApiId -> Value,
                        records: map<PromiseId, Loadable>)
    requires ApiOf(s).Some? && (asList || !s.Untagged?)
    ensures StatesSpec(reader, if asList then List([s]) else s, get, records) ==
      match Transform(reader, get(ApiOf(s).value), records)
      case Err(e) => Err(Thrown(e))
      case Ok(e) =>
        Ok(Rendered(if asList then Many([e.out]) else One(e.out), if e.wait.Some? then [Pending(0, e.wait.value)] else []))
  {
    MapStatesSingle(reader, s, get, records);
  }

  /** `useValue` suspends exactly when every state could be read and at least one value is a
      loading promise. */
  lemma ValueReadSuspends(input: StateInput, get: ApiId -> Value, records: map<PromiseId, Loadable>)
    requires Normalize(input).Ok?
    ensures var states := Normalize(input).value.states;
      ReadSpec(ValueReader, input, get, records).Suspend? <==>
        (forall i :: 0 <= i < |states| ==> ElementResult(ValueReader, states[i], i, get, records).Ok?) &&
        (exists i :: 0 <= i < |states| && WaitAt(ValueReader, states, i, get, records).Some?)
  {
    var states := Normalize(input).value.states;
    match MapStates(ValueReader, states, get, records)
    case Err(f) =>
      MapStatesFailure(ValueReader, states, get, records, f);
    case Ok(m) =>
      MapStatesOuts(ValueReader, states, get, records, m);
      MapStatesPendingSound(ValueReader, states, get, records, m);
      MapStatesPendingComplete(ValueReader, states, get, records, m);
      if m.pending != [] {
        assert WaitAt(ValueReader, states, m.pending[0].index, get, records).Some?;
      }
  }

  /** A suspension of `useValue` carries exactly the loading promises among the values. */
  lemma ValueReadSuspendsOn(input: StateInput, get: ApiId -> Value, records: map<PromiseId, Loadable>)
    requires Normalize(input).Ok? && ReadSpec(ValueReader, input, get, records).Suspend?
    ensures var states := Normalize(input).value.states;
      forall p :: p in ReadSpec(ValueReader, input, get, records).promises <==>
        (exists i :: 0 <= i < |states| && WaitAt(ValueReader, states, i, get, records) == Some(p))
  {
    var states := Normalize(input).value.states;
    var m := MapStates(ValueReader, states, get, records).value;
    MapStatesPendingSound(ValueReader, states, get, records, m);
    MapStatesPendingComplete(ValueReader, states, get, records, m);
    var ps := PromisesOf(m.pending);
    forall p | p in ps
      ensures exists i :: 0 <= i < |states| && WaitAt(ValueReader, states, i, get, records) == Some(p)
    {
      var k :| 0 <= k < |ps| && ps[k] == p;
      assert WaitAt(ValueReader, states, m.pending[k].index, get, records) == Some(p);
    }
    forall p | (exists i :: 0 <= i < |states| && WaitAt(ValueReader, states, i, get, records) == Some(p))
      ensures p in ps
    {
      var i :| 0 <= i < |states| && WaitAt(ValueReader, states, i, get, records) == Some(p);
      var k :| 0 <= k < |m.pending| && m.pending[k].index == i;
      assert ps[k] == p;
    }
  }

  /** An input that is neither a state nor an array makes both readers throw "Invalid state
      input" before any state is read. */
  lemma InvalidInputFails(reader: Reader, input: StateInput, get: ApiId -> Value,
                          records: map<PromiseId, Loadable>)
    requires input.Other? || input.Untagged?
    ensures StatesSpec(reader, input, get, records) == Err(InvalidStateInput)
    ensures ReadSpec(reader, input, get, records) == Fail(InvalidStateInput)
  {
  }

  /** `useLoadable` never suspends and never rethrows a value's error: it fails only for an
      invalid input or an array element that is not a state. */
  lemma LoadableReadNeverThrowsValues(input: StateInput, get: ApiId -> Value, records: map<PromiseId, Loadable>)
    ensures !ReadSpec(LoadableReader, input, get, records).Suspend?
    ensures ReadSpec(LoadableReader, input, get, records).Fail? ==>
      !ReadSpec(LoadableReader, input, get, records).failure.Thrown?
  {
    if Normalize(input).Ok? {
      var states := Normalize(input).value.states;
      if MapStates(LoadableReader, states, get, records).Err? {
        MapStatesFailure(LoadableReader, states, get, records, MapStates(LoadableReader, states, get, records).error);
      }
    }
  }

  /** Since no record the code writes is in the `'hasError'` state, `useValue` never rethrows
      a settled promise's error. */
  lemma ValueReadNeverThrowsWithoutHasError(input: StateInput, get: ApiId -> Value,
                                            records: map<PromiseId, Loadable>)
    requires forall p :: p in records ==> !records[p].HasError?
    ensures ReadSpec(ValueReader, input, get, records).Fail? ==>
      !ReadSpec(ValueReader, input, get, records).failure.Thrown?
  {
    if Normalize(input).Ok? {
      var states := Normalize(input).value.states;
      if MapStates(ValueReader, states, get, records).Err? {
        MapStatesFailure(ValueReader, states, get, records, MapStates(ValueReader, states, get, records).error);
      }
    }
  }

  // ---------------------------------------------------------------------------------------
  // The consumer's context and the imperative map

  /** A listener `useLoadable` hands to `__onDone`, with what its closure captured: the
      consumer and render it belongs to, the index, the promise, and what `prevValues[index]`
      holds when the promise settles. */
  datatype Listener = Listener(consumer: ConsumerId, render: nat, index: nat, promise: PromiseId,
                               prevAt: Option<Value>)

  /** A function pushed onto `unsubscribes`, by what it undoes. */
  datatype Unsub =
    | FromPromise(promise: PromiseId, listener: Listener)
    | FromFreeze(subscriber: SubscriberId)
    | FromApi(api: ApiId)

  /** When its promise settles, a listener re-renders only if `prevValues[index]` is that very
      promise; otherwise the value has moved on and the listener does nothing. */
  function Fires(l: Listener): bool
  {
    l.prevAt == Some(Thenable(l.promise))
  }

  /** The part of the context a render's listeners capture: the consumer, the render, and the
      array their `prevValues` refers to (on the first render, `nextValues` itself). */
  datatype RenderView = RenderView(consumer: ConsumerId, render: nat, prevIsNext: bool, prevValues: seq<Value>)
  {
    /** What a listener registered in this render for promise `p` at `index` will find in
        `prevValues[index]`: on the first render that array is `nextValues` itself, whose slot
        `index` holds `p`; later it is the previous render's values. */
    function SeenBy(index: nat, p: PromiseId): Option<Value>
    {
      if prevIsNext then Some(Thenable(p))
      else if index < |prevValues| then Some(prevValues[index])
      else None
    }
  }

  /** `contextRef.current`: what a consumer keeps from one render to the next. */
  class Context {
    const id: ConsumerId
    var freeze: FreezeScope?
    var renders: nat
    var apis: seq<ApiId>
    var prevValues: seq<Value>
    /** First render: `prevValues` is the very array `nextValues` is being filled into. */
    var prevIsNext: bool
    var nextValues: seq<Value>
    var unsubscribes: seq<Unsub>
    var unmount: bool

    constructor (id: ConsumerId)
      ensures this.id == id && freeze == null && renders == 0
      ensures apis == [] && prevValues == [] && !prevIsNext && nextValues == []
      ensures unsubscribes == [] && !unmount
    {
      this.id := id;
      freeze := null;
      renders := 0;
      apis := [];
      prevValues := [];
      prevIsNext := false;
      nextValues := [];
      unsubscribes := [];
      unmount := false;
    }

    /** What the closures created in the current render capture from the context. */
    function View(): RenderView
      reads this`renders, this`prevIsNext, this`prevValues
    {
      RenderView(id, renders, prevIsNext, prevValues)
    }

    /** The `Object.assign` at the start of every render: the last render's values become the
        previous ones (on the first render, the new array itself), and the per-render lists
        start empty. */
    method BeginRender(scope: FreezeScope?)
      modifies this
      ensures freeze == scope && renders == old(renders) + 1
      ensures apis == [] && nextValues == [] && unsubscribes == []
      ensures prevIsNext == (old(renders) == 0)
      ensures prevValues == if old(renders) == 0 then [] else old(nextValues)
      ensures unmount == old(unmount)
    {
      freeze := scope;
      prevIsNext := renders == 0;
      prevValues := if renders == 0 then [] else nextValues;
      apis := [];
      nextValues := [];
      unsubscribes := [];
      renders := renders + 1;
    }

    /** `apis.push(api)` and `nextValues[index] = value` for the next index. */
    method Track(api: ApiId, v: Value)
      modifies this`apis, this`nextValues
      ensures apis == old(apis) + [api] && nextValues == old(nextValues) + [v]
    {
      apis := apis + [api];
      nextValues := nextValues + [v];
    }

    /** `unsubscribes.push(value.__onDone(listener))` for the loading promise `p` just read at
        `index`. */
    method Register(table: PromiseTable<Listener>, index: nat, p: PromiseId)
      requires table.Valid() && p in table.listeners
      requires prevIsNext ==> index < |nextValues| && nextValues[index] == Thenable(p)
      modifies this`unsubscribes, table`listeners
      ensures table.Valid()
      ensures table.listeners == old(table.listeners)[p := old(table.listeners)[p] + {ListenerFor(View(), Pending(index, p))}]
      ensures unsubscribes == old(unsubscribes) + [FromPromise(p, ListenerFor(View(), Pending(index, p)))]
    {
      var l := ListenerFor(View(), Pending(index, p));
      table.OnDone(p, l);
      unsubscribes := unsubscribes + [FromPromise(p, l)];
    }
  }

  /** The promises among `values`. */
  function PromisesIn(values: seq<Value>): (r: set<PromiseId>)
    ensures forall p :: p in r ==> Thenable(p) in values
    decreases |values|
  {
    if values == [] then {}
    else
      var v := values[|values| - 1];
      PromisesIn(values[..|values| - 1]) + (if v.Thenable? then {v.promise} else {})
  }

  /** One more value adds its promise, if it is one, and nothing else. */
  lemma PromisesInExtend(values: seq<Value>, v: Value)
    ensures PromisesIn(values + [v]) == PromisesIn(values) + (if v.Thenable? then {v.promise} else {})
  {
    assert (values + [v])[..|values|] == values;
  }

  /** The table wraps exactly the promises it wrapped before and the promises among `values`,
      the values read so far; each has the record `enableLoadableLogic` leaves on it. */
  ghost predicate WrappedFrom(records: map<PromiseId, Loadable>, records0: map<PromiseId, Loadable>, values: seq<Value>)
  {
    records.Keys == records0.Keys + PromisesIn(values) &&
    forall q :: q in records ==> records[q] == Observe(records0, q)
  }

  /** Every listener set keeps what it had (a newly wrapped promise starts with none), and
      gains exactly the listeners whose `__onDone` results are on `unsubscribes`, each on a
      wrapped promise. A render of `useValue` leaves `unsubscribes` empty, so it adds none. */
  ghost predicate ListenersFrom(listeners: map<PromiseId, set<Listener>>, listeners0: map<PromiseId, set<Listener>>,
                               unsubscribes: seq<Unsub>)
  {
    (forall q :: q in listeners0 ==> q in listeners && listeners0[q] <= listeners[q]) &&
    (forall q, l :: q in listeners && l in listeners[q] ==>
       (q in listeners0 && l in listeners0[q]) || FromPromise(q, l) in unsubscribes) &&
    (forall u :: u in unsubscribes && u.FromPromise? ==> u.promise in listeners && u.listener in listeners[u.promise])
  }

  /** The listener `useLoadable` registered for the pending promise `pd`. */
  function ListenerFor(view: RenderView, pd: Pending): Listener
  {
    Listener(view.consumer, view.render, pd.index, pd.promise, view.SeenBy(pd.index, pd.promise))
  }

  /** `apis[j]` is the api of state `j` and `values[j]` the value its `get()` returned. */
  ghost predicate Tracked(states: seq<StateInput>, apis: seq<ApiId>, values: seq<Value>, get: ApiId -> Value)
  {
    |apis| == |states| && |values| == |states| &&
    forall j :: 0 <= j < |states| ==> ApiOf(states[j]) == Some(apis[j]) && values[j] == get(apis[j])
  }

  /** Reading state `i` extends the tracked lists by its api and value. */
  lemma TrackedExtend(states: seq<StateInput>, i: nat, apis: seq<ApiId>, values: seq<Value>, get: ApiId -> Value)
    requires i < |states| && Tracked(states[..i], apis, values, get) && ApiOf(states[i]).Some?
    ensures Tracked(states[..i + 1], apis + [ApiOf(states[i]).value], values + [get(ApiOf(states[i]).value)], get)
  {
    assert states[..i + 1] == states[..i] + [states[i]];
  }

  /** A listener registered on the first render always re-renders when its promise settles,
      since the array it reads is the one the promise was stored into; a listener of a later
      render does so exactly when the previous render read that same promise at its index. */
  lemma ListenerFiresWhenUnchanged(view: RenderView, pd: Pending)
    ensures view.prevIsNext ==> Fires(ListenerFor(view, pd))
    ensures !view.prevIsNext ==>
      (Fires(ListenerFor(view, pd)) <==>
       pd.index < |view.prevValues| && view.prevValues[pd.index] == Thenable(pd.promise))
  {
  }

  /** The `k`-th function on `unsubscribes` removes the listener registered for the `k`-th
      pending promise. */
  ghost predicate Registered(view: RenderView, unsubscribes: seq<Unsub>, pending: seq<Pending>)
  {
    |unsubscribes| == |pending| &&
    forall k :: 0 <= k < |pending| ==>
      unsubscribes[k] == FromPromise(pending[k].promise, ListenerFor(view, pending[k]))
  }

  /** One more registration, at the end of both lists. */
  lemma RegisteredExtend(view: RenderView, unsubscribes: seq<Unsub>, pending: seq<Pending>, pd: Pending)
    requires Registered(view, unsubscribes, pending)
    ensures Registered(view, unsubscribes + [FromPromise(pd.promise, ListenerFor(view, pd))], pending + [pd])
  {
  }

  /** After a render of `useLoadable`, each promise's listener set is what it was plus one
      listener per pending entry on that promise, and nothing else. */
  lemma RegisteredListeners(view: RenderView, listeners: map<PromiseId, set<Listener>>,
                            listeners0: map<PromiseId, set<Listener>>, unsubscribes: seq<Unsub>,
                            pending: seq<Pending>, q: PromiseId)
    requires ListenersFrom(listeners, listeners0, unsubscribes) && Registered(view, unsubscribes, pending)
    requires q in listeners
    ensures listeners[q] == (if q in listeners0 then listeners0[q] else {}) +
      set k | 0 <= k < |pending| && pending[k].promise == q :: ListenerFor(view, pending[k])
  {
    var base := if q in listeners0 then listeners0[q] else {};
    var added := set k | 0 <= k < |pending| && pending[k].promise == q :: ListenerFor(view, pending[k]);
    forall l | l in listeners[q]
      ensures l in base + added
    {
      if l !in base {
        var k :| 0 <= k < |unsubscribes| && unsubscribes[k] == FromPromise(q, l);
        assert pending[k].promise == q && ListenerFor(view, pending[k]) == l;
      }
    }
    forall l | l in added
      ensures l in listeners[q]
    {
      var k :| 0 <= k < |pending| && pending[k].promise == q && ListenerFor(view, pending[k]) == l;
      assert unsubscribes[k] in unsubscribes;
    }
  }

  /** A render that starts from an empty table and reads the one promise `p`, registering
      the listener `l` on it, leaves exactly that promise wrapped with exactly that listener. */
  lemma OneReadFrames(p: PromiseId, l: Listener, records: map<PromiseId, Loadable>,
                      listeners: map<PromiseId, set<Listener>>)
    requires WrappedFrom(records, map[], [Thenable(p)]) && listeners.Keys == records.Keys
    requires ListenersFrom(listeners, map[], [FromPromise(p, l)])
    ensures records == map[p := Loading] && listeners == map[p := {l}]
  {
    assert [Thenable(p)][..0] == [];
    assert records.Keys == {p};
    assert listeners[p] == {l};
  }

  /** Wrapping a promise that has no record yet gives it a `Loading` record, which is what
      `Observe` reports for it, and an empty listener set. */
  lemma WrapFrames(records: map<PromiseId, Loadable>, records0: map<PromiseId, Loadable>, values: seq<Value>,
                   listeners: map<PromiseId, set<Listener>>, listeners0: map<PromiseId, set<Listener>>,
                   unsubscribes: seq<Unsub>, v: Value)
    requires WrappedFrom(records, records0, values) && ListenersFrom(listeners, listeners0, unsubscribes)
    requires v.Thenable? && v.promise !in records && v.promise !in listeners
    ensures WrappedFrom(records[v.promise := Loading], records0, values + [v])
    ensures ListenersFrom(listeners[v.promise := {}], listeners0, unsubscribes)
  {
    PromisesInExtend(values, v);
  }

  /** Before any state is read, the table is its own starting point. */
  lemma FramesStart(records: map<PromiseId, Loadable>, listeners: map<PromiseId, set<Listener>>)
    ensures WrappedFrom(records, records, []) && ListenersFrom(listeners, listeners, [])
  {
    assert PromisesIn([]) == {};
  }

  /** Registering one listener adds it to its promise's set and to the list. */
  lemma ListenFrames(listeners: map<PromiseId, set<Listener>>, listeners0: map<PromiseId, set<Listener>>,
                     unsubscribes: seq<Unsub>, p: PromiseId, l: Listener)
    requires ListenersFrom(listeners, listeners0, unsubscribes) && p in listeners
    ensures ListenersFrom(listeners[p := listeners[p] + {l}], listeners0, unsubscribes + [FromPromise(p, l)])
  {
  }

  /** `enableLoadableLogic(value)` for a promise value; a plain value touches nothing. */
  method Wrap(table: PromiseTable<Listener>, v: Value, ghost records0: map<PromiseId, Loadable>, ghost values: seq<Value>,
              ghost listeners0: map<PromiseId, set<Listener>>, ghost unsubscribes: seq<Unsub>)
    requires table.Valid() && WrappedFrom(table.records, records0, values)
    requires ListenersFrom(table.listeners, listeners0, unsubscribes)
    modifies table
    ensures table.Valid() && WrappedFrom(table.records, records0, values + [v])
    ensures ListenersFrom(table.listeners, listeners0, unsubscribes)
    ensures old(table.NoHasError()) ==> table.NoHasError()
    ensures v.Thenable? ==> v.promise in table.records && Observe(table.records, v.promise) == Observe(records0, v.promise)
  {
    PromisesInExtend(values, v);
    if v.Thenable? {
      ghost var records, before := table.records, table.listeners;
      table.EnableLoadable(v.promise);
      if v.promise !in records {
        WrapFrames(records, records0, values, before, listeners0, unsubscribes, v);
      }
    }
  }

  /** One step of `states.map(...)`: read element `i`'s api and value, record them, wrap a
      promise, and apply the reader's transform. */
  method Visit(reader: Reader, ctx: Context, table: PromiseTable<Listener>, s: StateInput, i: nat,
               get: ApiId -> Value, ghost records0: map<PromiseId, Loadable>,
               ghost listeners0: map<PromiseId, set<Listener>>)
    returns (res: Result<Emitted, Failure>)
    requires table.Valid() && WrappedFrom(table.records, records0, ctx.nextValues)
    requires ListenersFrom(table.listeners, listeners0, ctx.unsubscribes)
    modifies ctx`apis, ctx`nextValues, table
    ensures res == ElementResult(reader, s, i, get, records0)
    ensures table.Valid() && WrappedFrom(table.records, records0, ctx.nextValues)
    ensures ListenersFrom(table.listeners, listeners0, ctx.unsubscribes)
    ensures old(table.NoHasError()) ==> table.NoHasError()
    ensures res.Ok? ==>
      ApiOf(s).Some? && ctx.apis == old(ctx.apis) + [ApiOf(s).value] &&
      ctx.nextValues == old(ctx.nextValues) + [get(ApiOf(s).value)]
    ensures res.Ok? && res.value.wait.Some? ==>
      ctx.nextValues[|old(ctx.nextValues)|] == Thenable(res.value.wait.value) && res.value.wait.value in table.records
  {
    var api := ApiOf(s);
    if api.None? {
      return Err(NotAState(i));
    }
    var v := get(api.value);
    ghost var values := ctx.nextValues;
    ctx.Track(api.value, v);
    Wrap(table, v, records0, values, listeners0, ctx.unsubscribes);
    TransformAfterWrap(reader, v, records0, table.records);
    var step := Transform(reader, v, table.records);
    if step.Err? {
      return Err(Thrown(step.error));
    }
    res := Ok(step.value);
  }

  /** `useLoadable`'s `unsubscribes.push(value.__onDone(...))` for the loading promise `p` read
      at index `i`. */
  method Listen(ctx: Context, table: PromiseTable<Listener>, i: nat, p: PromiseId,
                ghost listeners0: map<PromiseId, set<Listener>>, ghost pending: seq<Pending>)
    requires table.Valid() && ListenersFrom(table.listeners, listeners0, ctx.unsubscribes) && p in table.records
    requires ctx.prevIsNext ==> i < |ctx.nextValues| && ctx.nextValues[i] == Thenable(p)
    requires Registered(ctx.View(), ctx.unsubscribes, pending)
    modifies ctx`unsubscribes, table`listeners
    ensures table.Valid() && ListenersFrom(table.listeners, listeners0, ctx.unsubscribes)
    ensures Registered(ctx.View(), ctx.unsubscribes, pending + [Pending(i, p)])
  {
    ghost var l0, u, view := table.listeners, ctx.unsubscribes, ctx.View();
    ListenFrames(l0, listeners0, u, p, ListenerFor(view, Pending(i, p)));
    RegisteredExtend(view, u, pending, Pending(i, p));
    ctx.Register(table, i, p);
  }

  /** What the transform did with a loading promise after reading index `i`: `useValue` only
      collects it, `useLoadable` also registers a listener on it. */
  method Follow(reader: Reader, ctx: Context, table: PromiseTable<Listener>, i: nat, wait: Option<PromiseId>,
                ghost listeners0: map<PromiseId, set<Listener>>, pending: seq<Pending>) returns (next: seq<Pending>)
    requires table.Valid() && ListenersFrom(table.listeners, listeners0, ctx.unsubscribes)
    requires wait.Some? ==> wait.value in table.records
    requires wait.Some? && ctx.prevIsNext ==> i < |ctx.nextValues| && ctx.nextValues[i] == Thenable(wait.value)
    requires reader == ValueReader ==> ctx.unsubscribes == []
    requires reader == LoadableReader ==> Registered(ctx.View(), ctx.unsubscribes, pending)
    modifies ctx`unsubscribes, table`listeners
    ensures next == if wait.Some? then pending + [Pending(i, wait.value)] else pending
    ensures table.Valid() && ListenersFrom(table.listeners, listeners0, ctx.unsubscribes)
    ensures table.records == old(table.records)
    ensures reader == ValueReader ==> ctx.unsubscribes == []
    ensures reader == LoadableReader ==> Registered(ctx.View(), ctx.unsubscribes, next)
  {
    next := pending;
    if wait.Some? {
      if reader == LoadableReader {
        Listen(ctx, table, i, wait.value, listeners0, pending);
      }
      next := pending + [Pending(i, wait.value)];
    }
  }

  /** Reading state `i` in the loop below: on success the map over one more state extends
      the map so far by its output, and the context's lists by its api and value. */
  method ReadAt(reader: Reader, ctx: Context, table: PromiseTable<Listener>, states: seq<StateInput>, i: nat,
                get: ApiId -> Value, m: Mapped, ghost records0: map<PromiseId, Loadable>,
                ghost listeners0: map<PromiseId, set<Listener>>) returns (e: Result<Emitted, Failure>)
    requires i < |states| && MapStates(reader, states[..i], get, records0) == Ok(m)
    requires table.Valid() && WrappedFrom(table.records, records0, ctx.nextValues)
    requires ListenersFrom(table.listeners, listeners0, ctx.unsubscribes)
    requires Tracked(states[..i], ctx.apis, ctx.nextValues, get)
    modifies ctx`apis, ctx`nextValues, table
    ensures table.Valid() && WrappedFrom(table.records, records0, ctx.nextValues)
    ensures ListenersFrom(table.listeners, listeners0, ctx.unsubscribes)
    ensures old(table.NoHasError()) ==> table.NoHasError()
    ensures e.Err? ==> MapStates(reader, states, get, records0) == Err(e.error)
    ensures e.Ok? ==>
      MapStates(reader, states[..i + 1], get, records0) ==
      Ok(Mapped(m.outs + [e.value.out], if e.value.wait.Some? then m.pending + [Pending(i, e.value.wait.value)] else m.pending))
    ensures e.Ok? ==> Tracked(states[..i + 1], ctx.apis, ctx.nextValues, get)
    ensures e.Ok? && e.value.wait.Some? ==>
      i < |ctx.nextValues| && ctx.nextValues[i] == Thenable(e.value.wait.value) && e.value.wait.value in table.records
  {
    ghost var apis, values := ctx.apis, ctx.nextValues;
    assert |values| == i;
    e := Visit(reader, ctx, table, states[i], i, get, records0, listeners0);
    if e.Err? {
      MapStatesStepFailure(reader, states, i, get, records0, e.error);
      return;
    }
    MapStatesStep(reader, states, i, get, records0, m, e.value);
    TrackedExtend(states, i, apis, values, get);
  }

  /** One turn of the loop below: state `i` is read, recorded and transformed, and for
      `useLoadable` a listener goes on its promise if that is still loading. On success the
      map over one more state is returned, with everything the loop keeps extended by it. */
  method Step(reader: Reader, ctx: Context, table: PromiseTable<Listener>, states: seq<StateInput>, i: nat,
              get: ApiId -> Value, m: Mapped, ghost records0: map<PromiseId, Loadable>,
              ghost listeners0: map<PromiseId, set<Listener>>) returns (r: Result<Mapped, Failure>)
    requires i < |states| && MapStates(reader, states[..i], get, records0) == Ok(m)
    requires table.Valid() && WrappedFrom(table.records, records0, ctx.nextValues)
    requires ListenersFrom(table.listeners, listeners0, ctx.unsubscribes)
    requires Tracked(states[..i], ctx.apis, ctx.nextValues, get)
    requires reader == ValueReader ==> ctx.unsubscribes == []
    requires reader == LoadableReader ==> Registered(ctx.View(), ctx.unsubscribes, m.pending)
    modifies ctx`apis, ctx`nextValues, ctx`unsubscribes, table
    ensures table.Valid() && WrappedFrom(table.records, records0, ctx.nextValues)
    ensures ListenersFrom(table.listeners, listeners0, ctx.unsubscribes)
    ensures old(table.NoHasError()) ==> table.NoHasError()
    ensures reader == ValueReader ==> ctx.unsubscribes == []
    ensures r.Err? ==> MapStates(reader, states, get, records0) == r
    ensures r.Ok? ==> MapStates(reader, states[..i + 1], get, records0) == r
    ensures r.Ok? ==> Tracked(states[..i + 1], ctx.apis, ctx.nextValues, get)
    ensures r.Ok? && reader == LoadableReader ==> Registered(ctx.View(), ctx.unsubscribes, r.value.pending)
  {
    ghost var view := ctx.View();
    var e := ReadAt(reader, ctx, table, states, i, get, m, records0, listeners0);
    if e.Err? {
      return Err(e.error);
    }
    assert ctx.View() == view;
    var pending := Follow(reader, ctx, table, i, e.value.wait, listeners0, m.pending);
    r := Ok(Mapped(m.outs + [e.value.out], pending));
  }

  /** The loop of `states.map(...)` in one render, from a table that the render has not yet
      touched (`records0`, `listeners0`) and an empty context: every state in order, until
      the first one that throws. */
  method MapFrom(reader: Reader, ctx: Context, table: PromiseTable<Listener>, states: seq<StateInput>,
                 get: ApiId -> Value, ghost records0: map<PromiseId, Loadable>,
                 ghost listeners0: map<PromiseId, set<Listener>>) returns (r: Result<Mapped, Failure>)
    requires table.Valid() && ctx.apis == [] && ctx.nextValues == [] && ctx.unsubscribes == []
    requires WrappedFrom(table.records, records0, []) && ListenersFrom(table.listeners, listeners0, [])
    modifies ctx`apis, ctx`nextValues, ctx`unsubscribes, table
    ensures r == MapStates(reader, states, get, records0)
    ensures table.Valid() && WrappedFrom(table.records, records0, ctx.nextValues)
    ensures ListenersFrom(table.listeners, listeners0, ctx.unsubscribes)
    ensures old(table.NoHasError()) ==> table.NoHasError()
    ensures reader == ValueReader ==> ctx.unsubscribes == []
    ensures r.Ok? ==> Tracked(states, ctx.apis, ctx.nextValues, get)
    ensures r.Ok? && reader == LoadableReader ==> Registered(ctx.View(), ctx.unsubscribes, r.value.pending)
  {
    var m := Mapped([], []);
    var i := 0;
    while i < |states|
      invariant 0 <= i <= |states|
      invariant MapStates(reader, states[..i], get, records0) == Ok(m)
      invariant table.Valid() && WrappedFrom(table.records, records0, ctx.nextValues)
      invariant ListenersFrom(table.listeners, listeners0, ctx.unsubscribes)
      invariant old(table.NoHasError()) ==> table.NoHasError()
      invariant Tracked(states[..i], ctx.apis, ctx.nextValues, get)
      invariant reader == ValueReader ==> ctx.unsubscribes == []
      invariant reader == LoadableReader ==> Registered(ctx.View(), ctx.unsubscribes, m.pending)
    {
      var next := Step(reader, ctx, table, states, i, get, m, records0, listeners0);
      if next.Err? {
        return next;
      }
      m := next.value;
      i := i + 1;
    }
    assert states[..i] == states;
    r := Ok(m);
  }

  /** `states.map(...)` over the whole render. The table gains exactly the promises read and,
      for `useLoadable`, exactly the listeners on the context's list. */
  method MapInto(reader: Reader, ctx: Context, table: PromiseTable<Listener>, states: seq<StateInput>,
                 get: ApiId -> Value) returns (r: Result<Mapped, Failure>)
    requires table.Valid()
    requires ctx.apis == [] && ctx.nextValues == [] && ctx.unsubscribes == []
    modifies ctx`apis, ctx`nextValues, ctx`unsubscribes, table
    ensures r == MapStates(reader, states, get, old(table.records))
    ensures table.Valid() && WrappedFrom(table.records, old(table.records), ctx.nextValues)
    ensures ListenersFrom(table.listeners, old(table.listeners), ctx.unsubscribes)
    ensures old(table.NoHasError()) ==> table.NoHasError()
    ensures reader == ValueReader ==> ctx.unsubscribes == []
    ensures r.Ok? ==> Tracked(states, ctx.apis, ctx.nextValues, get)
    ensures r.Ok? && reader == LoadableReader ==> Registered(ctx.View(), ctx.unsubscribes, r.value.pending)
  {
    FramesStart(table.records, table.listeners);
    r := MapFrom(reader, ctx, table, states, get, table.records, table.listeners);
  }

  /** A render of a valid input: the `Object.assign` reset of the context, then the map over
      its states. */
  method Render(reader: Reader, ctx: Context, table: PromiseTable<Listener>, scope: FreezeScope?,
                states: seq<StateInput>, get: ApiId -> Value) returns (r: Result<Mapped, Failure>)
    requires table.Valid()
    modifies ctx, table
    ensures r == MapStates(reader, states, get, old(table.records))
    ensures table.Valid() && (old(table.NoHasError()) ==> table.NoHasError())
    ensures ctx.freeze == scope && ctx.renders == old(ctx.renders) + 1 && ctx.unmount == old(ctx.unmount)
    ensures ctx.prevIsNext == (old(ctx.renders) == 0)
    ensures ctx.prevValues == (if old(ctx.renders) == 0 then [] else old(ctx.nextValues))
    ensures WrappedFrom(table.records, old(table.records), ctx.nextValues)
    ensures ListenersFrom(table.listeners, old(table.listeners), ctx.unsubscribes)
    ensures reader == ValueReader ==> ctx.unsubscribes == []
    ensures r.Ok? ==> Tracked(states, ctx.apis, ctx.nextValues, get)
    ensures r.Ok? && reader == LoadableReader ==> Registered(ctx.View(), ctx.unsubscribes, r.value.pending)
  {
    ctx.BeginRender(scope);
    r := MapInto(reader, ctx, table, states, get);
  }

  /** `useStates` on one render: classify the input (an invalid one touches nothing), reset the
      context, map the states, and shape the result. */
  method UseStates(reader: Reader, ctx: Context, table: PromiseTable<Listener>, scope: FreezeScope?,
                   input: StateInput, get: ApiId -> Value) returns (r: Result<Rendered, Failure>)
    requires table.Valid()
    modifies ctx, table
    ensures r == StatesSpec(reader, input, get, old(table.records))
    ensures table.Valid() && (old(table.NoHasError()) ==> table.NoHasError())
    ensures Normalize(input).Err? ==> unchanged(ctx) && unchanged(table)
    ensures Normalize(input).Ok? ==>
      ctx.freeze == scope && ctx.renders == old(ctx.renders) + 1 && ctx.unmount == old(ctx.unmount) &&
      ctx.prevIsNext == (old(ctx.renders) == 0) &&
      ctx.prevValues == (if old(ctx.renders) == 0 then [] else old(ctx.nextValues))
    ensures Normalize(input).Ok? ==>
      WrappedFrom(table.records, old(table.records), ctx.nextValues) &&
      ListenersFrom(table.listeners, old(table.listeners), ctx.unsubscribes)
    ensures Normalize(input).Ok? && reader == ValueReader ==> ctx.unsubscribes == []
    ensures r.Ok? ==> Tracked(Normalize(input).value.states, ctx.apis, ctx.nextValues, get)
    ensures r.Ok? && reader == LoadableReader ==> Registered(ctx.View(), ctx.unsubscribes, r.value.pending)
  {
    var normalized := Normalize(input);
    if normalized.Err? {
      return Err(normalized.error);
    }
    var m := Render(reader, ctx, table, scope, normalized.value.states, get);
    if m.Err? {
      return Err(m.error);
    }
    r := Ok(Rendered(Shape(normalized.value.isMultiple, m.value.outs), m.value.pending));
  }

  /** `useValue`: the mapped values, or a suspension on every loading promise. The table gains
      a record for each promise read and no listener. */
  method UseValue(ctx: Context, table: PromiseTable<Listener>, scope: FreezeScope?,
                  input: StateInput, get: ApiId -> Value) returns (r: Read)
    requires table.Valid()
    modifies ctx, table
    ensures r == ReadSpec(ValueReader, input, get, old(table.records))
    ensures table.Valid() && (old(table.NoHasError()) ==> table.NoHasError())
    ensures Normalize(input).Err? ==> unchanged(ctx) && unchanged(table)
    ensures Normalize(input).Ok? ==>
      ctx.freeze == scope && ctx.renders == old(ctx.renders) + 1 && ctx.unmount == old(ctx.unmount) &&
      ctx.prevIsNext == (old(ctx.renders) == 0) &&
      ctx.prevValues == (if old(ctx.renders) == 0 then [] else old(ctx.nextValues))
    ensures Normalize(input).Ok? ==>
      WrappedFrom(table.records, old(table.records), ctx.nextValues) && ctx.unsubscribes == [] &&
      ListenersFrom(table.listeners, old(table.listeners), [])
    ensures StatesSpec(ValueReader, input, get, old(table.records)).Ok? ==>
      Tracked(Normalize(input).value.states, ctx.apis, ctx.nextValues, get)
  {
    var s := UseStates(ValueReader, ctx, table, scope, input, get);
    match s
    case Err(f) => r := Fail(f);
    case Ok(rd) =>
      if rd.pending != [] {
        r := Suspend(PromisesOf(rd.pending));
      } else {
        r := Done(rd.result);
      }
  }

  /** `useLoadable`: the snapshots, with one listener on every loading promise read, and no
      other change to the listener sets. */
  method UseLoadable(ctx: Context, table: PromiseTable<Listener>, scope: FreezeScope?,
                     input: StateInput, get: ApiId -> Value) returns (r: Read)
    requires table.Valid()
    modifies ctx, table
    ensures r == ReadSpec(LoadableReader, input, get, old(table.records))
    ensures table.Valid() && (old(table.NoHasError()) ==> table.NoHasError())
    ensures Normalize(input).Err? ==> unchanged(ctx) && unchanged(table)
    ensures Normalize(input).Ok? ==>
      ctx.freeze == scope && ctx.renders == old(ctx.renders) + 1 && ctx.unmount == old(ctx.unmount) &&
      ctx.prevIsNext == (old(ctx.renders) == 0) &&
      ctx.prevValues == (if old(ctx.renders) == 0 then [] else old(ctx.nextValues))
    ensures Normalize(input).Ok? ==>
      WrappedFrom(table.records, old(table.records), ctx.nextValues) &&
      ListenersFrom(table.listeners, old(table.listeners), ctx.unsubscribes)
    ensures StatesSpec(LoadableReader, input, get, old(table.records)).Ok? ==>
      Tracked(Normalize(input).value.states, ctx.apis, ctx.nextValues, get)
    ensures StatesSpec(LoadableReader, input, get, old(table.records)).Ok? ==>
      Registered(ctx.View(), ctx.unsubscribes, StatesSpec(LoadableReader, input, get, old(table.records)).value.pending)
  {
    var s := UseStates(LoadableReader, ctx, table, scope, input, get);
    match s
    case Err(f) => r := Fail(f);
    case Ok(rd) => r := Done(rd.result);
  }
}
