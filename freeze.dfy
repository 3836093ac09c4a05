/** The freeze scope behind the `Freeze` element (`createFreeze`): a node in a parent-linked
    tree that can be frozen or unfrozen, tells its subscribers when that flips, and collects
    deferred re-render requests that it later replays in one debounced flush. */
module FreezeScopes {
  import opened Basics

  /** The identity of a callback handed to `subscribe`. */
  type SubscriberId = nat

  /** A consumer's `rerender` function, handed to `rerenderChild`. Every render of a consumer
      installs a fresh closure, so the functions of two renders are two members of a set. */
  datatype Rerender = Rerender(consumer: ConsumerId, render: nat)

  /** The scope's `enabled` variable: the `unset` sentinel (an empty object, which is truthy)
      until the first `setFrozen`, then the boolean last given. */
  datatype Setting = Unset | Set(value: bool)
  {
    /** JavaScript truthiness of `enabled`: the sentinel object counts as true. */
    predicate Truthy()
    {
      Unset? || value
    }
  }

  class FreezeScope {
    /** The enclosing scope found through the context, if any; it never changes. */
    const parent: FreezeScope?
    /** Every scope above this one; its size bounds the recursion of `IsFrozen`. */
    ghost const ancestors: set<FreezeScope>
    ghost const depth: nat

    var enabled: Setting
    var subscriptions: set<SubscriberId>
    var rerenderFunctions: set<Rerender>
    /** A zero-delay flush timer is scheduled and has not fired yet. */
    var flushPending: bool

    /** The parent chain is finite and `ancestors` is exactly the chain above this scope. */
    ghost predicate Linked()
      decreases depth
    {
      if parent == null then
        ancestors == {} && depth == 0
      else
        parent.depth < depth && ancestors == parent.ancestors + {parent} && parent.Linked()
    }

    /** Re-render requests are only ever queued together with a scheduled flush. */
    ghost predicate Valid()
      reads this
    {
      Linked() && (rerenderFunctions != {} ==> flushPending)
    }

    constructor (parent: FreezeScope?)
      requires parent != null ==> parent.Linked()
      ensures Valid()
      ensures this.parent == parent
      ensures ancestors == if parent == null then {} else parent.ancestors + {parent}
      ensures enabled == Unset && subscriptions == {} && rerenderFunctions == {} && !flushPending
    {
      this.parent := parent;
      if parent == null {
        ancestors := {};
        depth := 0;
      } else {
        ancestors := parent.ancestors + {parent};
        depth := parent.depth + 1;
      }
      enabled := Unset;
      subscriptions := {};
      rerenderFunctions := {};
      flushPending := false;
    }

    /** A scope is frozen exactly when its own setting and the setting of every scope above
        it are truthy. */
    function IsFrozen(): (r: bool)
      requires Linked()
      reads this`enabled, ancestors`enabled
      ensures r <==> enabled.Truthy() && forall a :: a in ancestors ==> a.enabled.Truthy()
      decreases depth
    {
      enabled.Truthy() && (parent == null || parent.IsFrozen())
    }

    /** `subscribe` adds the callback; what it returns is `Unsubscribe`. */
    method Subscribe(s: SubscriberId)
      requires Valid()
      modifies this`subscriptions
      ensures Valid()
      ensures subscriptions == old(subscriptions) + {s}
    {
      subscriptions := subscriptions + {s};
    }

    /** The function `subscribe` returns: removes that one callback and no other. */
    method Unsubscribe(s: SubscriberId)
      requires Valid()
      modifies this`subscriptions
      ensures Valid()
      ensures subscriptions == old(subscriptions) - {s}
    {
      subscriptions := subscriptions - {s};
    }

    /** The first call seeds the setting silently; a call with the current value does
        nothing; a call with the other value stores it and calls every subscriber once
        (the callbacks are returned, in the order the set is iterated, rather than run). */
    method SetFrozen(value: bool) returns (notified: seq<SubscriberId>)
      requires Valid()
      modifies this`enabled
      ensures Valid()
      ensures enabled == Set(value)
      ensures old(enabled) == Unset ==> notified == []
      ensures old(enabled) == Set(value) ==> notified == []
      ensures old(enabled) == Set(!value) ==> Enumerates(notified, subscriptions)
    {
      notified := [];
      if enabled == Unset {
        enabled := Set(value);
      } else if enabled != Set(value) {
        enabled := Set(value);
        notified := Enumerate(subscriptions);
      }
    }

    /** Queues a re-render (a set, so one function is queued once) and restarts the
        zero-delay flush timer: however many requests arrive, one flush is pending. */
    method RerenderChild(f: Rerender)
      requires Valid()
      modifies this`rerenderFunctions, this`flushPending
      ensures Valid()
      ensures rerenderFunctions == old(rerenderFunctions) + {f}
      ensures flushPending
    {
      flushPending := false;
      rerenderFunctions := rerenderFunctions + {f};
      flushPending := true;
    }

    /** The timer firing: the queue is copied, emptied, and every function in the copy is
        called exactly once. Without a pending timer nothing happens. */
    method Flush() returns (called: seq<Rerender>)
      requires Valid()
      modifies this`rerenderFunctions, this`flushPending
      ensures Valid()
      ensures Enumerates(called, old(rerenderFunctions))
      ensures rerenderFunctions == {} && !flushPending
    {
      if flushPending {
        called := Enumerate(rerenderFunctions);
        rerenderFunctions := {};
        flushPending := false;
      } else {
        called := Enumerate(rerenderFunctions);
      }
    }

    /** Empties both sets. The flush timer is left as it is, so a flush that fires later
        finds nothing to call. */
    method Dispose()
      requires Valid()
      modifies this`subscriptions, this`rerenderFunctions
      ensures Valid()
      ensures subscriptions == {} && rerenderFunctions == {}
      ensures flushPending == old(flushPending)
    {
      subscriptions := {};
      rerenderFunctions := {};
    }
  }

  /** Before its first `setFrozen` a scope with no parent reports itself frozen, because the
      `unset` sentinel is truthy. */
  lemma UnsetRootIsFrozen(s: FreezeScope)
    requires s.Linked() && s.parent == null && s.enabled == Unset
    ensures s.IsFrozen()
  {
  }

  /** Frozen-ness is a conjunction down the chain: one ancestor set to `false` unfreezes
      every scope below it, whatever their own settings. */
  lemma UnfrozenAncestorUnfreezes(s: FreezeScope, a: FreezeScope)
    requires s.Linked() && a in s.ancestors && a.enabled == Set(false)
    ensures !s.IsFrozen()
  {
  }
}
