/** Whole runs of the library against fresh objects: each method builds its scopes, tables and
    contexts, drives them through one story the library is written for, and states what the
    caller observes at each step. */
module Scenarios {
  import opened Basics
  import opened Loadables
  import opened StateInputs
  import opened FreezeScopes
  import opened Readers
  import opened Effects

  /** Several re-render requests before the timer fires are replayed once each, in one flush;
      a second flush finds nothing. */
  method CoalescedFlush() returns (first: seq<Rerender>, second: seq<Rerender>)
    ensures |first| == 2 && Rerender(1, 1) in first && Rerender(2, 1) in first
    ensures second == []
  {
    var scope := new FreezeScope(null);
    scope.RerenderChild(Rerender(1, 1));
    scope.RerenderChild(Rerender(1, 1));
    scope.RerenderChild(Rerender(2, 1));
    first := scope.Flush();
    second := scope.Flush();
    EnumeratesEmpty(second);
  }

  /** After `dispose`, a pending flush calls nothing and a flip of the setting notifies no one. */
  method DisposedScope() returns (flushed: seq<Rerender>, notified: seq<SubscriberId>)
    ensures flushed == [] && notified == []
  {
    var scope := new FreezeScope(null);
    var seeded := scope.SetFrozen(true);
    scope.Subscribe(1);
    scope.RerenderChild(Rerender(1, 1));
    scope.Dispose();
    flushed := scope.Flush();
    EnumeratesEmpty(flushed);
    notified := scope.SetFrozen(false);
    EnumeratesEmpty(notified);
  }

  /** Frozen-ness is a conjunction down the chain: under a frozen scope, a scope set to
      unfrozen is not frozen and a scope set to frozen is; unfreezing the outer scope then
      unfreezes the inner one, and a still-unset scope follows its parent. */
  method NestedScopes() returns (openUnderFrozen: bool, innerBefore: bool, innerAfter: bool, unsetFollows: bool)
    ensures !openUnderFrozen && innerBefore && !innerAfter && !unsetFollows
  {
    var outer := new FreezeScope(null);
    var n0 := outer.SetFrozen(true);
    var open := new FreezeScope(outer);
    var n1 := open.SetFrozen(false);
    openUnderFrozen := open.IsFrozen();
    var inner := new FreezeScope(outer);
    var n2 := inner.SetFrozen(true);
    innerBefore := inner.IsFrozen();
    var n3 := outer.SetFrozen(false);
    innerAfter := inner.IsFrozen();
    var unset := new FreezeScope(outer);
    unsetFollows := unset.IsFrozen();
  }

  /** `useValue` on a state holding a pending promise suspends on that promise; once it
      resolves, the retried render (a fresh mount, since a suspended render keeps nothing)
      reads the payload. */
  method SuspendThenResolve() returns (first: Read, notified: seq<Listener>, second: Read)
    ensures first == Suspend([5])
    ensures notified == []
    ensures second == Done(Many([Val(Plain(100))]))
  {
    var table := new PromiseTable<Listener>();
    var get := (a: ApiId) => Thenable(5);
    var ctx := new Context(1);
    StatesSpecOfOne(ValueReader, StateFn(0), true, get, map[]);
    first := UseValue(ctx, table, null, List([StateFn(0)]), get);
    assert PromisesOf([Pending(0, 5)]) == [5];
    assert ctx.nextValues[0] == Thenable(5);
    notified := table.Settle(5, Fulfilled(100));
    EnumeratesEmpty(notified);
    var retry := new Context(1);
    StatesSpecOfOne(ValueReader, StateFn(0), true, get, table.records);
    second := UseValue(retry, table, null, List([StateFn(0)]), get);
  }

  /** What a `useLoadable` render over the array holding only state 0, whose value is the
      pending promise 5, leaves behind on a table that has wrapped nothing: the api and value
      read, one unsubscribe, and exactly that promise wrapped with exactly its listener. */
  lemma OneLoadingRead(view: RenderView, get: ApiId -> Value, apis: seq<ApiId>, values: seq<Value>,
                       unsubscribes: seq<Unsub>, records: map<PromiseId, Loadable>,
                       listeners: map<PromiseId, set<Listener>>)
    requires get(0) == Thenable(5) && Tracked([StateFn(0)], apis, values, get)
    requires Registered(view, unsubscribes, [Pending(0, 5)])
    requires WrappedFrom(records, map[], values) && listeners.Keys == records.Keys
    requires ListenersFrom(listeners, map[], unsubscribes)
    ensures apis == [0] && values == [Thenable(5)]
    ensures unsubscribes == [FromPromise(5, ListenerFor(view, Pending(0, 5)))]
    ensures records == map[5 := Loading] && listeners == map[5 := {ListenerFor(view, Pending(0, 5))}]
  {
    assert ApiOf([StateFn(0)][0]) == Some(apis[0]);
    assert values == [Thenable(5)];
    assert unsubscribes == [FromPromise(5, ListenerFor(view, Pending(0, 5)))];
    OneReadFrames(5, ListenerFor(view, Pending(0, 5)), records, listeners);
  }

  /** The first render of a `useLoadable` consumer reading one state whose value is the pending
      promise 5: a loading snapshot, and exactly one listener on the promise, captured by the
      consumer's list; nothing else is wrapped. */
  method RenderLoading() returns (table: PromiseTable<Listener>, ctx: Context, first: Read, l: Listener)
    ensures fresh(table) && fresh(ctx)
    ensures first == Done(Many([Snap(Loading)]))
    ensures table.Valid() && 5 in table.awaiting
    ensures table.records == map[5 := Loading] && table.listeners == map[5 := {l}]
    ensures l == Listener(1, 1, 0, 5, Some(Thenable(5))) && Fires(l)
    ensures ctx.id == 1 && ctx.freeze == null && ctx.renders == 1 && !ctx.unmount
    ensures ctx.unsubscribes == [FromPromise(5, l)] && ctx.apis == [0]
  {
    table := new PromiseTable<Listener>();
    ctx := new Context(1);
    var get := (a: ApiId) => Thenable(5);
    StatesSpecOfOne(LoadableReader, StateFn(0), true, get, map[]);
    assert StatesSpec(LoadableReader, List([StateFn(0)]), get, map[]) == Ok(Rendered(Many([Snap(Loading)]), [Pending(0, 5)]));
    assert Normalize(List([StateFn(0)])).value.states == [StateFn(0)] && get(0) == Thenable(5);
    first := UseLoadable(ctx, table, null, List([StateFn(0)]), get);
    assert ctx.View() == RenderView(1, 1, true, []);
    OneLoadingRead(ctx.View(), get, ctx.apis, ctx.nextValues, ctx.unsubscribes, table.records, table.listeners);
    l := Listener(1, 1, 0, 5, Some(Thenable(5)));
  }

  /** `useLoadable` on a pending promise renders a loading snapshot and registers a listener;
      the settlement calls that listener and no other, which re-renders because the value is
      unchanged, and the next render shows the payload. */
  method LoadableRerendersOnSettle() returns (first: Read, l: Listener, notified: seq<Listener>, second: Read)
    ensures first == Done(Many([Snap(Loading)]))
    ensures notified == [l] && Fires(l)
    ensures second == Done(Many([Snap(HasValue(100))]))
  {
    var table, ctx;
    table, ctx, first, l := RenderLoading();
    notified := table.Settle(5, Fulfilled(100));
    EnumeratesSingleton(notified, l);
    var get := (a: ApiId) => Thenable(5);
    StatesSpecOfOne(LoadableReader, StateFn(0), true, get, table.records);
    second := UseLoadable(ctx, table, null, List([StateFn(0)]), get);
  }

  /** A render of `ctx` reading state 0 under `scope`, where state 0 holds a plain value. */
  method ReadPlain(table: PromiseTable<Listener>, ctx: Context, scope: FreezeScope, get: ApiId -> Value)
    returns (r: Read)
    requires table.Valid() && get(0).Plain?
    modifies table, ctx
    ensures table.Valid()
    ensures r == Done(One(Val(get(0))))
    ensures ctx.freeze == scope && ctx.renders == old(ctx.renders) + 1 && ctx.unmount == old(ctx.unmount)
  {
    StatesSpecOfOne(ValueReader, StateFn(0), false, get, table.records);
    r := UseValue(ctx, table, scope, StateFn(0), get);
  }

  /** The first render of consumer `id`. */
  method RenderPlain(table: PromiseTable<Listener>, scope: FreezeScope, id: ConsumerId, get: ApiId -> Value)
    returns (r: Read, ctx: Context)
    requires table.Valid() && get(0).Plain?
    modifies table
    ensures table.Valid()
    ensures r == Done(One(Val(get(0))))
    ensures fresh(ctx) && ctx.id == id && ctx.freeze == scope && ctx.renders == 1 && !ctx.unmount
  {
    ctx := new Context(id);
    r := ReadPlain(table, ctx, scope, get);
  }

  /** The first render and mount of consumer `id` reading state 0 under `scope`. */
  method MountUnder(table: PromiseTable<Listener>, scope: FreezeScope, id: ConsumerId, get: ApiId -> Value)
    returns (r: Read, effect: Effect)
    requires table.Valid() && scope.Valid() && get(0).Plain?
    modifies table, scope`subscriptions
    ensures table.Valid() && scope.Valid()
    ensures r == Done(One(Val(get(0))))
    ensures fresh(effect) && fresh(effect.ctx)
    ensures effect.Valid() && effect.freeze == scope && !effect.shouldRerender && effect.isFrozen == scope.IsFrozen()
    ensures effect.ctx.id == id && effect.ctx.renders == 1 && !effect.ctx.unmount
    ensures scope.subscriptions == old(scope.subscriptions) + {id}
  {
    var ctx;
    r, ctx := RenderPlain(table, scope, id, get);
    effect := new Effect.Mount(ctx);
  }

  /** The scope of a mounted, unfrozen consumer freezes; a change arrives and is held back;
      the scope unfreezes, the held-back re-render goes to the flush, and the flush calls it. */
  method HoldThenFlush(effect: Effect) returns (renderedAtOnce: bool, queued: bool, flushed: seq<Rerender>)
    requires effect.Valid() && !effect.shouldRerender && !effect.isFrozen
    requires effect.freeze != null && effect.freeze.Valid() && effect.freeze.parent == null
    requires effect.freeze.enabled == Set(false) && effect.freeze.subscriptions == {effect.ctx.id}
    requires effect.freeze.rerenderFunctions == {} && !effect.ctx.unmount
    modifies effect`isFrozen, effect`shouldRerender, effect.freeze
    ensures !renderedAtOnce && queued
    ensures flushed == [Rerender(effect.ctx.id, effect.ctx.renders)]
  {
    var scope := effect.freeze;
    var flipped := scope.SetFrozen(true);
    EnumeratesSingleton(flipped, effect.ctx.id);
    var q0 := effect.HandleFreezeChange();

    renderedAtOnce := effect.HandleChange();

    var thawed := scope.SetFrozen(false);
    EnumeratesSingleton(thawed, effect.ctx.id);
    queued := effect.HandleFreezeChange();

    flushed := scope.Flush();
    EnumeratesSingleton(flushed, Rerender(effect.ctx.id, effect.ctx.renders));
  }

  /** Two consumers of state 0, holding 1: consumer 1 mounted under one scope and consumer 2
      under another, both scopes set to unfrozen. */
  method TwoConsumers() returns (table: PromiseTable<Listener>, effect: Effect, sibling: Effect, before: Read)
    ensures fresh(table) && fresh(effect) && fresh(effect.ctx) && fresh(effect.freeze) && fresh(sibling)
    ensures table.Valid() && before == Done(One(Val(Plain(1))))
    ensures effect.Valid() && !effect.shouldRerender && !effect.isFrozen
    ensures effect.freeze != null && effect.freeze.Valid() && effect.freeze.parent == null
    ensures effect.freeze.enabled == Set(false) && effect.freeze.subscriptions == {effect.ctx.id}
    ensures effect.freeze.rerenderFunctions == {} && effect.ctx.id == 1 && effect.ctx.renders == 1 && !effect.ctx.unmount
    ensures sibling != effect && sibling.Valid() && !sibling.isFrozen
  {
    table := new PromiseTable<Listener>();
    var firstScope := new FreezeScope(null);
    var secondScope := new FreezeScope(null);
    var n0 := firstScope.SetFrozen(false);
    var n1 := secondScope.SetFrozen(false);
    var count1 := (a: ApiId) => Plain(1);
    var r;
    before, effect := MountUnder(table, firstScope, 1, count1);
    r, sibling := MountUnder(table, secondScope, 2, count1);
  }

  /** A consumer under a frozen scope holds back a state change; unfreezing the scope hands
      its re-render to the scope's flush, which calls it, and the re-render reads the new
      value. A consumer under a scope that stays unfrozen re-renders at once. */
  method FrozenConsumer() returns (before: Read, renderedAtOnce: bool, immediate: bool, queued: bool,
                                   flushed: seq<Rerender>, after: Read)
    ensures before == Done(One(Val(Plain(1))))
    ensures !renderedAtOnce && immediate && queued
    ensures flushed == [Rerender(1, 1)]
    ensures after == Done(One(Val(Plain(2))))
  {
    var table, effect, sibling;
    table, effect, sibling, before := TwoConsumers();
    renderedAtOnce, queued, flushed := HoldThenFlush(effect);
    immediate := sibling.HandleChange();
    var count2 := (a: ApiId) => Plain(2);
    after := ReadPlain(table, effect.ctx, effect.freeze, count2);
  }

  /** Mounting the consumer `RenderLoading` rendered, with no freeze scope: the effect's list
      holds the promise listener's unsubscribe, then the state's. */
  method MountLoading(ctx: Context, l: Listener) returns (effect: Effect)
    requires ctx.freeze == null && ctx.unsubscribes == [FromPromise(5, l)] && ctx.apis == [0]
    modifies ctx`unsubscribes
    ensures fresh(effect) && effect.ctx == ctx && effect.freeze == null && effect.Valid()
    ensures effect.unsubscribes == [FromPromise(5, l), FromApi(0)]
  {
    effect := new Effect.Mount(ctx);
  }

  /** On a table whose only promise is 5 with the only listener `l`, releasing a list that
      holds `l`'s unsubscribe leaves promise 5 with no listener and nothing else. */
  lemma ReleasedOnlyPromise(l: Listener, now: map<PromiseId, set<Listener>>, us: seq<Unsub>)
    requires ListenersAfter(now, map[5 := {l}], us) && FromPromise(5, l) in us
    ensures now == map[5 := {}]
  {
    ReleasedOnlyListener(5, l, now, map[5 := {l}], us);
    assert now.Keys == {5};
  }

  /** Unmounting it: its listener leaves the promise's set and the state it read is released. */
  method UnmountLoading(table: PromiseTable<Listener>, effect: Effect, l: Listener) returns (released: seq<ApiId>)
    requires table.Valid() && 5 in table.awaiting && table.listeners == map[5 := {l}]
    requires effect.freeze == null && effect.Valid() && effect.unsubscribes == [FromPromise(5, l), FromApi(0)]
    modifies effect.ctx`unmount, table`listeners
    ensures released == [0]
    ensures table.Valid() && 5 in table.awaiting && table.listeners == map[5 := {}]
  {
    MountReleasesApis([FromPromise(5, l)], [], [0]);
    assert [FromPromise(5, l)] + [] + ApiUnsubs([0]) == effect.unsubscribes;
    released := effect.Cleanup(table);
    ReleasedOnlyPromise(l, table.listeners, effect.unsubscribes);
  }

  /** Unmounting a `useLoadable` consumer removes its listener from the promise and releases
      the state it read, so a later settlement calls nobody. */
  method UnmountDropsListener() returns (released: seq<ApiId>, l: Listener, notified: seq<Listener>)
    ensures released == [0]
    ensures notified == []
  {
    var table, ctx, first;
    table, ctx, first, l := RenderLoading();
    var effect := MountLoading(ctx, l);
    released := UnmountLoading(table, effect, l);
    notified := table.Settle(5, Fulfilled(100));
    EnumeratesEmpty(notified);
  }
}
