/** The loadable record that `enableLoadableLogic` attaches to a promise, kept here in a side
    table keyed by the promise's identity, together with the promise's `__onDone` listener set
    and its `sameThread` flag. A settlement of the promise is an explicit event. */
module Loadables {
  import opened Basics

  /** The record stored as `promise.__loadable`. The code writes `'loading'`, `'hasValue'` and,
      on rejection, `'error'`; `'hasError'` is the state `useValue` tests for, which the code
      never writes. */
  datatype Loadable =
    | Loading
    | HasValue(value: Payload)
    | Errored(error: Payload)
    | HasError(error: Payload)

  /** How a promise settles. */
  datatype Outcome = Fulfilled(payload: Payload) | Rejected(reason: Payload)

  /** The record the settlement handlers write: a fulfilment carries its payload, a rejection
      is stored under the `'error'` state. */
  function Settled(o: Outcome): (r: Loadable)
    ensures r != Loading && !r.HasError?
    ensures r.HasValue? <==> o.Fulfilled?
    ensures o.Fulfilled? ==> r.value == o.payload
    ensures o.Rejected? ==> r.error == o.reason
  {
    match o
    case Fulfilled(x) => HasValue(x)
    case Rejected(e) => Errored(e)
  }

  /** The record a promise carries right after `enableLoadableLogic`: the existing one if it
      was already wrapped, a fresh `Loading` otherwise. */
  function Observe(records: map<PromiseId, Loadable>, p: PromiseId): Loadable
  {
    if p in records then records[p] else Loading
  }

  /** A promise seen for the first time is never settled, and a settled record is the one the
      table already held. */
  lemma ObserveCases(records: map<PromiseId, Loadable>, p: PromiseId)
    ensures p !in records ==> Observe(records, p) == Loading
    ensures Observe(records, p) != Loading ==> p in records && records[p] == Observe(records, p)
  {
  }

  /** Every wrapped promise has its listener set and flag, and its record is `Loading` exactly
      while its handlers are still to run. A flag is only set while `enableLoadableLogic`
      runs, and a promise never settles during that call. */
  ghost predicate Consistent(records: map<PromiseId, Loadable>, listening: set<PromiseId>,
                             sameThread: map<PromiseId, bool>, awaiting: set<PromiseId>)
  {
    listening == records.Keys && sameThread.Keys == records.Keys && awaiting <= records.Keys &&
    (forall p :: p in records ==> (records[p] == Loading <==> p in awaiting)) &&
    (forall p :: p in sameThread ==> !sameThread[p])
  }

  /** `L` is the type of the listeners handed to `__onDone`. */
  class PromiseTable<L(==,!new)> {
    /** `promise.__loadable`, for every promise wrapped so far. */
    var records: map<PromiseId, Loadable>
    /** The listener set behind `promise.__onDone`. */
    var listeners: map<PromiseId, set<L>>
    /** The `sameThread` variable of each wrapping call. */
    var sameThread: map<PromiseId, bool>
    /** Promises whose settlement handlers are attached and have not run yet. */
    var awaiting: set<PromiseId>

    ghost predicate Valid()
      reads this
    {
      Consistent(records, listeners.Keys, sameThread, awaiting)
    }

    /** No record is in the `'hasError'` state (true of every table the code builds). */
    ghost predicate NoHasError()
      reads this
    {
      forall p :: p in records ==> !records[p].HasError?
    }

    constructor ()
      ensures Valid() && NoHasError()
      ensures records == map[] && listeners == map[] && sameThread == map[] && awaiting == {}
    {
      records := map[];
      listeners := map[];
      sameThread := map[];
      awaiting := {};
    }

    /** `enableLoadableLogic`: a promise that already has a record is left exactly as it is
        (no new record, no second pair of handlers); otherwise it gets a `Loading` record, an
        empty listener set and handlers, and `sameThread` is cleared before returning. */
    method EnableLoadable(p: PromiseId)
      requires Valid()
      modifies this
      ensures Valid()
      ensures old(NoHasError()) ==> NoHasError()
      ensures p in records && records[p] == Observe(old(records), p)
      ensures p in old(records) ==>
        records == old(records) && listeners == old(listeners) &&
        sameThread == old(sameThread) && awaiting == old(awaiting)
      ensures p !in old(records) ==>
        records == old(records)[p := Loading] && listeners == old(listeners)[p := {}] &&
        sameThread == old(sameThread)[p := false] && awaiting == old(awaiting) + {p}
    {
      if p in records {
        return;
      }
      sameThread := sameThread[p := true];
      records := records[p := Loading];
      listeners := listeners[p := {}];
      awaiting := awaiting + {p};
      sameThread := sameThread[p := false];
    }

    /** `promise.__onDone(listener)`: adds the listener to that promise's set. */
    method OnDone(p: PromiseId, l: L)
      requires Valid() && p in listeners
      modifies this`listeners
      ensures Valid()
      ensures listeners == old(listeners)[p := old(listeners)[p] + {l}]
    {
      listeners := listeners[p := listeners[p] + {l}];
    }

    /** The function `__onDone` returns: removes that listener from that promise's set. */
    method OffDone(p: PromiseId, l: L)
      modifies this`listeners
      ensures p in old(listeners) ==> listeners == old(listeners)[p := old(listeners)[p] - {l}]
      ensures p !in old(listeners) ==> listeners == old(listeners)
    {
      if p in listeners {
        listeners := listeners[p := listeners[p] - {l}];
      }
    }

    /** The promise settles. For a wrapped promise whose handlers have not run, its record
        becomes `Settled(o)` and, `sameThread` being clear by then, every listener in its set
        is called once (the listeners are returned rather than run). For any other promise
        nothing happens: a promise settles once, and only wrapped promises have handlers. */
    method Settle(p: PromiseId, o: Outcome) returns (notified: seq<L>)
      requires Valid()
      modifies this`records, this`awaiting
      ensures Valid()
      ensures old(NoHasError()) ==> NoHasError()
      ensures p in old(awaiting) ==>
        records == old(records)[p := Settled(o)] && awaiting == old(awaiting) - {p}
      ensures p in old(awaiting) ==> Enumerates(notified, listeners[p])
      ensures p !in old(awaiting) ==>
        records == old(records) && awaiting == old(awaiting) && notified == []
    {
      notified := [];
      if p in awaiting {
        records := records[p := Settled(o)];
        awaiting := awaiting - {p};
        if !sameThread[p] {
          notified := Enumerate(listeners[p]);
        }
      }
    }
  }
}
