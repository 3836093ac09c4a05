/** The input classification at the head of `useStates` and the final shaping of its result,
    with the convention-based `__istate` tagging made an explicit variant type. */
module StateInputs {
  import opened Basics

  /** What a caller may pass to `useValue` / `useLoadable`. */
  datatype StateInput =
    | StateFn(api: ApiId)                // a state function, tagged `__istate === 'state'`
    | StateTuple(api: ApiId)             // a `[value, api]` tuple, tagged `__istate === 'api'`
    | Untagged(api: ApiId)               // an untagged function whose call returns `[value, api]`
    | List(items: seq<StateInput>)       // a plain array
    | Other                              // anything else: null, a number, an untagged object

  datatype Failure =
    | InvalidStateInput                  // `new Error('Invalid state input')`
    | NotAState(index: nat)              // an array element that is not callable nor a tuple
    | Thrown(error: Payload)             // a `'hasError'` record's error, rethrown

  /** The list `useStates` maps over, and whether the caller gets the list or its only element. */
  datatype Normalized = Normalized(states: seq<StateInput>, isMultiple: bool)

  /** The caller-facing result: `isMultiple ? values : values[0]`. */
  datatype Shaped<T> = Many(items: seq<T>) | One(item: T)

  /** A tagged state or tuple becomes a one-element list read as a single value; an array is
      used as it is; anything else, an untagged function included, is rejected before any
      state is read. */
  function Normalize(input: StateInput): (r: Result<Normalized, Failure>)
    ensures r.Err? <==> input.Other? || input.Untagged?
    ensures r.Err? ==> r.error == InvalidStateInput
    ensures r.Ok? ==> (r.value.isMultiple <==> input.List?)
    ensures r.Ok? && !r.value.isMultiple ==> r.value.states == [input]
    ensures r.Ok? && r.value.isMultiple ==> r.value.states == input.items
  {
    match input
    case StateFn(_) => Ok(Normalized([input], false))
    case StateTuple(_) => Ok(Normalized([input], false))
    case List(items) => Ok(Normalized(items, true))
    case Untagged(_) => Err(InvalidStateInput)
    case Other => Err(InvalidStateInput)
  }

  /** `isStateApi(state) ? state[1] : state()[1]`: a tuple gives its second item; any other
      element is called, tagged or not, and its result's second item is the api. An element
      that cannot be called (an array, a number, null) has none. */
  function ApiOf(s: StateInput): (r: Option<ApiId>)
    ensures r.Some? <==> !s.List? && !s.Other?
    ensures r.Some? ==> r.value == s.api
  {
    match s
    case StateTuple(a) => Some(a)
    case StateFn(a) => Some(a)
    case Untagged(a) => Some(a)
    case _ => None
  }

  /** The list for an array input, its only element otherwise. */
  function Shape<T>(isMultiple: bool, values: seq<T>): (r: Shaped<T>)
    requires isMultiple || |values| == 1
    ensures r.Many? <==> isMultiple
    ensures r.Many? ==> r.items == values
    ensures r.One? ==> [r.item] == values
  {
    if isMultiple then Many(values) else One(values[0])
  }

}
