/** The mount effect of `useStates`: it subscribes the consumer to the states it read and to
    the enclosing freeze scope, holds back a state change while the consumer is frozen, hands
    the held-back re-render to the scope once it unfreezes, and undoes every subscription on
    unmount. */
module Effects {
  import opened Basics
  import opened Loadables
  import opened FreezeScopes
  import opened Readers

  /** The apis whose `subscribe` results are among `us`, in order. */
  function ApisIn(us: seq<Unsub>): (r: seq<ApiId>)
    ensures |r| <= |us|
    ensures forall a :: a in r <==> FromApi(a) in us
    decreases |us|
  {
    if us == [] then []
    else
      var last := us[|us| - 1];
      ApisIn(us[..|us| - 1]) + (if last.FromApi? then [last.api] else [])
  }

  /** The freeze callbacks whose `subscribe` results are among `us`. */
  function FreezeSubscribers(us: seq<Unsub>): set<SubscriberId>
  {
    set u | u in us && u.FromFreeze? :: u.subscriber
  }

  /** The listeners on promise `p` whose `__onDone` results are among `us`. */
  function DoneListeners(us: seq<Unsub>, p: PromiseId): set<Listener>
  {
    set u | u in us && u.FromPromise? && u.promise == p :: u.listener
  }

  /** One more function on the list releases at most its own callback or listener. */
  lemma ReleasedStep(us: seq<Unsub>, u: Unsub)
    ensures FreezeSubscribers(us + [u]) == FreezeSubscribers(us) + (if u.FromFreeze? then {u.subscriber} else {})
    ensures forall p ::
      (DoneListeners(us + [u], p) == DoneListeners(us, p) + (if u.FromPromise? && u.promise == p then {u.listener} else {}))
    ensures ApisIn(us + [u]) == ApisIn(us) + (if u.FromApi? then [u.api] else [])
  {
    assert (us + [u])[..|us|] == us;
  }

  /** `now` is `before` with the listeners released by `us` taken out of their sets. */
  ghost predicate ListenersAfter(now: map<PromiseId, set<Listener>>, before: map<PromiseId, set<Listener>>,
                                 us: seq<Unsub>)
  {
    now.Keys == before.Keys && forall p :: p in now ==> now[p] == before[p] - DoneListeners(us, p)
  }

  /** Releasing one more function takes at most its own listener out. */
  lemma ListenersAfterStep(now0: map<PromiseId, set<Listener>>, now1: map<PromiseId, set<Listener>>,
                           before: map<PromiseId, set<Listener>>, us: seq<Unsub>, u: Unsub)
    requires ListenersAfter(now0, before, us)
    requires now1.Keys == now0.Keys
    requires forall p :: p in now1 ==>
      now1[p] == now0[p] - (if u.FromPromise? && u.promise == p then {u.listener} else {})
    ensures ListenersAfter(now1, before, us + [u])
  {
    ReleasedStep(us, u);
  }

  /** Releasing a list that holds the unsubscribe of a promise's only listener leaves that
      promise with no listener, whatever other promises the table holds. */
  lemma ReleasedOnlyListener(p: PromiseId, l: Listener, now: map<PromiseId, set<Listener>>,
                             before: map<PromiseId, set<Listener>>, us: seq<Unsub>)
    requires ListenersAfter(now, before, us) && p in before && before[p] == {l}
    requires FromPromise(p, l) in us
    ensures p in now && now[p] == {}
  {
    assert l in DoneListeners(us, p);
  }

  /** One `api.subscribe(handleChange)` result per api, in the order the apis were read. */
  function ApiUnsubs(apis: seq<ApiId>): (r: seq<Unsub>)
    ensures |r| == |apis| && forall i :: 0 <= i < |apis| ==> r[i] == FromApi(apis[i])
  {
    seq(|apis|, i requires 0 <= i < |apis| => FromApi(apis[i]))
  }

  /** Releasing the functions of two lists releases the apis of the first, then the second. */
  lemma {:induction false} ApisInAppend(us: seq<Unsub>, vs: seq<Unsub>)
    ensures ApisIn(us + vs) == ApisIn(us) + ApisIn(vs)
    decreases |vs|
  {
    if vs != [] {
      var n := |vs| - 1;
      assert (us + vs)[..|us + vs| - 1] == us + vs[..n];
      ApisInAppend(us, vs[..n]);
    } else {
      assert us + vs == us;
    }
  }

  /** The api unsubscribes of an effect list in order are exactly the apis it subscribed to. */
  lemma {:induction false} ApisInApiUnsubs(apis: seq<ApiId>)
    ensures ApisIn(ApiUnsubs(apis)) == apis
    decreases |apis|
  {
    if apis != [] {
      var n, us := |apis| - 1, ApiUnsubs(apis);
      assert us[..n] == ApiUnsubs(apis[..n]);
      ApisInApiUnsubs(apis[..n]);
      assert ApisIn(us) == ApisIn(us[..n]) + [apis[n]];
      assert apis == apis[..n] + [apis[n]];
    }
  }

  /** A list with no api unsubscribe releases no api. */
  lemma ApisInNone(us: seq<Unsub>)
    requires forall u :: u in us ==> !u.FromApi?
    ensures ApisIn(us) == []
  {
    if ApisIn(us) != [] {
      assert ApisIn(us)[0] in ApisIn(us);
    }
  }

  /** Only promise listeners are registered during a render, so the list the mount effect
      builds releases, on unmount, every api read by the first render, each once and in the
      order they were read. */
  lemma MountReleasesApis(rendered: seq<Unsub>, scopePart: seq<Unsub>, apis: seq<ApiId>)
    requires forall u :: u in rendered + scopePart ==> !u.FromApi?
    ensures ApisIn(rendered + scopePart + ApiUnsubs(apis)) == apis
  {
    ApisInAppend(rendered + scopePart, ApiUnsubs(apis));
    ApisInApiUnsubs(apis);
    ApisInNone(rendered + scopePart);
  }

  /** ... and releases the scope callback it added, and no other. */
  lemma MountReleasesScope(rendered: seq<Unsub>, id: ConsumerId, hasScope: bool, apis: seq<ApiId>)
    requires forall u :: u in rendered ==> u.FromPromise?
    ensures FreezeSubscribers(rendered + (if hasScope then [FromFreeze(id)] else []) + ApiUnsubs(apis)) ==
      (if hasScope then {id} else {})
  {
  }

  /** The state the effect's closures share: `isFrozen`, `shouldRerender` and the captured
      `unsubscribes` array, for one mounted consumer. */
  class Effect {
    /** `contextRef.current`, the consumer's context object. */
    const ctx: Context
    /** `context.freeze` when the effect ran. */
    const freeze: FreezeScope?
    var isFrozen: bool
    var shouldRerender: bool
    /** The `unsubscribes` array of the first render, which the effect extends and the cleanup
        walks. */
    var unsubscribes: seq<Unsub>

    /** The scope the effect subscribed to, as a frame. */
    function Scope(): set<FreezeScope>
    {
      if freeze == null then {} else {freeze}
    }

    /** A held-back change is only ever left pending while the consumer is frozen or unmounted. */
    ghost predicate Valid()
      reads this, ctx`unmount
    {
      shouldRerender ==> isFrozen || ctx.unmount
    }

    /** The effect body: read the scope's state, subscribe to the scope, then subscribe to every
        api read by the render, pushing each unsubscribe onto the render's list. */
    constructor Mount(ctx: Context)
      requires ctx.freeze != null ==> ctx.freeze.Valid()
      modifies ctx`unsubscribes, (if ctx.freeze == null then {} else {ctx.freeze})`subscriptions
      ensures Valid()
      ensures this.ctx == ctx && freeze == ctx.freeze
      ensures freeze != null ==> freeze.Valid() && isFrozen == freeze.IsFrozen()
      ensures freeze == null ==> !isFrozen
      ensures !shouldRerender
      ensures unsubscribes ==
        old(ctx.unsubscribes) + (if freeze != null then [FromFreeze(ctx.id)] else []) + ApiUnsubs(ctx.apis)
      ensures ctx.unsubscribes == unsubscribes
      ensures freeze != null ==> freeze.subscriptions == old(ctx.freeze.subscriptions) + {ctx.id}
    {
      this.ctx := ctx;
      freeze := ctx.freeze;
      isFrozen := ctx.freeze != null && ctx.freeze.IsFrozen();
      shouldRerender := false;
      unsubscribes := ctx.unsubscribes;
      new;
      if freeze != null {
        freeze.Subscribe(ctx.id);
        unsubscribes := unsubscribes + [FromFreeze(ctx.id)];
      }
      ghost var before := unsubscribes;
      var i := 0;
      while i < |ctx.apis|
        invariant 0 <= i <= |ctx.apis|
        invariant unsubscribes == before + ApiUnsubs(ctx.apis[..i])
        modifies this`unsubscribes
      {
        assert ApiUnsubs(ctx.apis[..i + 1]) == ApiUnsubs(ctx.apis[..i]) + [FromApi(ctx.apis[i])];
        unsubscribes := unsubscribes + [FromApi(ctx.apis[i])];
        i := i + 1;
      }
      assert ctx.apis[..i] == ctx.apis;
      ctx.unsubscribes := unsubscribes;
    }

    /** `handleChange`: while frozen the change is remembered instead of re-rendering;
        otherwise the consumer re-renders at once (the result says whether it does). */
    method HandleChange() returns (rerender: bool)
      requires Valid()
      modifies this`shouldRerender
      ensures Valid()
      ensures rerender <==> !isFrozen
      ensures shouldRerender == (old(shouldRerender) || isFrozen)
    {
      if isFrozen {
        shouldRerender := true;
        return false;
      }
      rerender := true;
    }

    /** `handleFreezeChange`: re-read the scope; once it is unfrozen, a remembered change of a
        mounted consumer is handed to the scope's debounced flush, and forgotten here. */
    method HandleFreezeChange() returns (queued: bool)
      requires Valid() && freeze != null && freeze.Valid()
      modifies this`isFrozen, this`shouldRerender, freeze`rerenderFunctions, freeze`flushPending
      ensures Valid() && freeze.Valid()
      ensures isFrozen == freeze.IsFrozen()
      ensures queued <==> !isFrozen && old(shouldRerender) && !ctx.unmount
      ensures shouldRerender == (old(shouldRerender) && !queued)
      ensures queued ==>
        freeze.rerenderFunctions == old(freeze.rerenderFunctions) + {Rerender(ctx.id, ctx.renders)} &&
        freeze.flushPending
      ensures !queued ==>
        freeze.rerenderFunctions == old(freeze.rerenderFunctions) && freeze.flushPending == old(freeze.flushPending)
    {
      isFrozen := freeze.IsFrozen();
      queued := !isFrozen && shouldRerender && !ctx.unmount;
      if queued {
        shouldRerender := false;
        freeze.RerenderChild(Rerender(ctx.id, ctx.renders));
      }
    }

    /** Calls one unsubscribe function: a promise listener or the scope callback is removed,
        an api is handed back. */
    method Release(table: PromiseTable<Listener>, u: Unsub) returns (api: seq<ApiId>)
      requires freeze != null ==> freeze.Valid()
      modifies table`listeners, Scope()`subscriptions
      ensures freeze != null ==> freeze.Valid()
      ensures api == if u.FromApi? then [u.api] else []
      ensures freeze != null ==>
        freeze.subscriptions == old(freeze.subscriptions) - (if u.FromFreeze? then {u.subscriber} else {})
      ensures table.listeners.Keys == old(table.listeners).Keys
      ensures forall p :: p in table.listeners ==>
        table.listeners[p] == old(table.listeners)[p] - (if u.FromPromise? && u.promise == p then {u.listener} else {})
    {
      api := [];
      match u {
        case FromPromise(p, l) =>
          table.OffDone(p, l);
        case FromFreeze(s) =>
          if freeze != null {
            freeze.Unsubscribe(s);
          }
        case FromApi(a) =>
          api := [a];
      }
    }

    /** Calls the `i`-th function on the captured list, given that those before it have been
        called. */
    method ReleaseNext(table: PromiseTable<Listener>, i: nat, released: seq<ApiId>,
                       ghost listeners0: map<PromiseId, set<Listener>>, ghost subscriptions0: set<SubscriberId>)
      returns (next: seq<ApiId>)
      requires i < |unsubscribes| && released == ApisIn(unsubscribes[..i])
      requires freeze != null ==> freeze.Valid() && freeze.subscriptions == subscriptions0 - FreezeSubscribers(unsubscribes[..i])
      requires ListenersAfter(table.listeners, listeners0, unsubscribes[..i])
      modifies table`listeners, Scope()`subscriptions
      ensures next == ApisIn(unsubscribes[..i + 1])
      ensures freeze != null ==>
        freeze.Valid() && freeze.subscriptions == subscriptions0 - FreezeSubscribers(unsubscribes[..i + 1])
      ensures ListenersAfter(table.listeners, listeners0, unsubscribes[..i + 1])
    {
      var u := unsubscribes[i];
      assert unsubscribes[..i + 1] == unsubscribes[..i] + [u];
      ReleasedStep(unsubscribes[..i], u);
      ghost var now0 := table.listeners;
      var api := Release(table, u);
      ListenersAfterStep(now0, table.listeners, listeners0, unsubscribes[..i], u);
      next := released + api;
    }

    /** The effect's cleanup: mark the consumer unmounted and call every function on the
        captured list; api unsubscribes leave the model and are returned in order. */
    method Cleanup(table: PromiseTable<Listener>) returns (released: seq<ApiId>)
      requires Valid() && table.Valid()
      requires freeze != null ==> freeze.Valid()
      modifies ctx`unmount, table`listeners, Scope()`subscriptions
      ensures Valid() && ctx.unmount && table.Valid()
      ensures released == ApisIn(unsubscribes)
      ensures freeze != null ==>
        freeze.Valid() && freeze.subscriptions == old(freeze.subscriptions) - FreezeSubscribers(unsubscribes)
      ensures ListenersAfter(table.listeners, old(table.listeners), unsubscribes)
    {
      ctx.unmount := true;
      ghost var subscriptions0 := if freeze != null then freeze.subscriptions else {};
      released := [];
      var i := 0;
      while i < |unsubscribes|
        invariant 0 <= i <= |unsubscribes|
        invariant released == ApisIn(unsubscribes[..i])
        invariant freeze != null ==>
          freeze.Valid() && freeze.subscriptions == subscriptions0 - FreezeSubscribers(unsubscribes[..i])
        invariant ListenersAfter(table.listeners, old(table.listeners), unsubscribes[..i])
        modifies table`listeners, Scope()`subscriptions
      {
        released := ReleaseNext(table, i, released, old(table.listeners), subscriptions0);
        i := i + 1;
      }
      assert unsubscribes[..i] == unsubscribes;
    }
  }
}
