/**
 * The relay side of the core: the reference batch processor, which settles every
 * requested event id exactly once (with the event, or with null), and the pool
 * manager, which keeps one zap subscription per view, closes it at most once, and
 * serves referenced events cache-aside.
 *
 * Relay deliveries, end-of-stored-events and timeouts are method calls made by the
 * environment; the network itself is not modelled.
 */
module ZapPool {
  import opened Wrappers
  import opened ZapEvents
  import AppSettings

  function ItemSet(items: seq<string>): set<string>
  {
    set id | id in items
  }

  /** Every id of `ids` settled to null. */
  function NullFor(ids: set<string>): map<string, Option<Event>>
  {
    map id | id in ids :: None
  }

  /** One `onBatchProcess` call: its ids, the ids seen so far, its subscription and its promise. */
  datatype Batch = Batch(items: seq<string>, processed: set<string>, open: bool, done: bool)

  class ReferenceProcessor {
    var relayUrls: Option<seq<string>>
    /** Ids whose callers are still waiting: the keys of the batch processor's `resolvers`. */
    var resolvers: set<string>
    /** What each settled id was resolved with; `None` is null. */
    var settled: map<string, Option<Event>>
    /** Batches in flight or finished, by the order they were started. */
    var batches: map<nat, Batch>
    var nextBatch: nat

    ghost predicate Valid()
      reads this
    {
      forall b :: b in batches ==> b < nextBatch
    }

    constructor ()
      ensures Valid()
      ensures relayUrls == None && resolvers == {} && settled == map[]
      ensures batches == map[] && nextBatch == 0
    {
      relayUrls := None;
      resolvers := {};
      settled := map[];
      batches := map[];
      nextBatch := 0;
    }

    /** `setRelayUrls(urls)` */
    method SetRelayUrls(urls: Option<seq<string>>)
      modifies this`relayUrls
      ensures relayUrls == urls
    {
      relayUrls := urls;
    }

    /**
     * `getOrCreateFetchPromise(id)` as far as the waiting set goes: a second request
     * for an id that is still waiting joins the first one.
     */
    method Request(id: string) returns (joined: bool)
      modifies this`resolvers
      ensures joined <==> id in old(resolvers)
      ensures resolvers == old(resolvers) + {id}
    {
      joined := id in resolvers;
      resolvers := resolvers + {id};
    }

    /** `resolveItem(id, value)`: settles a waiting id once; an id nobody waits for is ignored. */
    method ResolveItem(id: string, value: Option<Event>)
      modifies this`resolvers, this`settled
      ensures id in old(resolvers) ==> resolvers == old(resolvers) - {id} && settled == old(settled)[id := value]
      ensures id !in old(resolvers) ==> resolvers == old(resolvers) && settled == old(settled)
    {
      if id in resolvers {
        resolvers := resolvers - {id};
        settled := settled[id := value];
      }
    }

    /** Settles to null every id of `ids` outside `seen` that is still waiting. */
    method SettleUnseen(ids: seq<string>, seen: set<string>)
      modifies this`resolvers, this`settled
      ensures resolvers == old(resolvers) - (ItemSet(ids) - seen)
      ensures settled == old(settled) + NullFor((ItemSet(ids) - seen) * old(resolvers))
    {
      var i := 0;
      while i < |ids|
        invariant 0 <= i <= |ids|
        invariant resolvers == old(resolvers) - (ItemSet(ids[..i]) - seen)
        invariant settled == old(settled) + NullFor((ItemSet(ids[..i]) - seen) * old(resolvers))
      {
        assert ItemSet(ids[..i + 1]) == ItemSet(ids[..i]) + {ids[i]} by {
          assert ids[..i + 1] == ids[..i] + [ids[i]];
        }
        if ids[i] !in seen && ids[i] in resolvers {
          ResolveItem(ids[i], None);
        }
        i := i + 1;
      }
      assert ids[..i] == ids;
    }

    /**
     * `onBatchProcess(items)`: without relay URLs every id settles to null at once;
     * otherwise a subscription for the ids is opened and the batch waits for events.
     */
    method OnBatchProcess(items: seq<string>) returns (b: nat)
      requires Valid()
      modifies this`resolvers, this`settled, this`batches, this`nextBatch
      ensures Valid()
      ensures b == old(nextBatch) && b in batches && batches == old(batches)[b := batches[b]]
      ensures batches[b].items == items && batches[b].processed == {}
      ensures relayUrls.None? ==>
                && !batches[b].open && batches[b].done
                && resolvers == old(resolvers) - ItemSet(items)
                && settled == old(settled) + NullFor((ItemSet(items)) * old(resolvers))
      ensures relayUrls.Some? ==>
                && batches[b].open && !batches[b].done
                && resolvers == old(resolvers) && settled == old(settled)
    {
      b := nextBatch;
      nextBatch := nextBatch + 1;
      if relayUrls.None? {
        SettleUnseen(items, {});
        batches := batches[b := Batch(items, {}, false, true)];
      } else {
        batches := batches[b := Batch(items, {}, true, false)];
      }
    }

    /**
     * The batch subscription's `onevent`: the event settles its own id; once every
     * requested id has been seen the subscription closes and the batch completes.
     */
    method OnBatchEvent(b: nat, event: Event)
      requires Valid() && b in batches && batches[b].open
      modifies this`resolvers, this`settled, this`batches
      ensures Valid()
      ensures event.id !in resolvers
      ensures event.id in old(resolvers) ==> settled == old(settled)[event.id := Some(event)]
      ensures event.id !in old(resolvers) ==> settled == old(settled)
      ensures resolvers == old(resolvers) - {event.id}
      ensures var old_b := old(batches[b]);
              var seen := old_b.processed + {event.id};
              batches == old(batches)[b := if ItemSet(old_b.items) <= seen
                                           then Batch(old_b.items, seen, false, true)
                                           else old_b.(processed := seen)]
    {
      var batch := batches[b];
      var seen := batch.processed + {event.id};
      ResolveItem(event.id, Some(event));
      if ItemSet(batch.items) <= seen {
        batches := batches[b := Batch(batch.items, seen, false, true)];
      } else {
        batches := batches[b := batch.(processed := seen)];
      }
    }

    /** The batch subscription's `oneose`: every unseen id still waiting settles to null. */
    method OnBatchEose(b: nat)
      requires Valid() && b in batches
      modifies this`resolvers, this`settled, this`batches
      ensures Valid()
      ensures var batch := old(batches[b]);
              && resolvers == old(resolvers) - (ItemSet(batch.items) - batch.processed)
              && settled == old(settled) + NullFor((ItemSet(batch.items) - batch.processed) * old(resolvers))
              && batches == old(batches)[b := batch.(done := true)]
    {
      var batch := batches[b];
      SettleUnseen(batch.items, batch.processed);
      batches := batches[b := batch.(done := true)];
    }

    /** The batch timeout: the subscription closes and every unseen id still waiting settles to null. */
    method OnBatchTimeout(b: nat)
      requires Valid() && b in batches
      modifies this`resolvers, this`settled, this`batches
      ensures Valid()
      ensures var batch := old(batches[b]);
              && resolvers == old(resolvers) - (ItemSet(batch.items) - batch.processed)
              && settled == old(settled) + NullFor((ItemSet(batch.items) - batch.processed) * old(resolvers))
              && batches == old(batches)[b := batch.(open := false, done := true)]
    {
      var batch := batches[b];
      SettleUnseen(batch.items, batch.processed);
      batches := batches[b := batch.(open := false, done := true)];
    }

    /** `onBatchError(items, error)`: every id of the batch still waiting settles to null. */
    method OnBatchError(items: seq<string>)
      modifies this`resolvers, this`settled
      ensures resolvers == old(resolvers) - ItemSet(items)
      ensures settled == old(settled) + NullFor((ItemSet(items)) * old(resolvers))
    {
      SettleUnseen(items, {});
    }
  }

  /** The handle `closeSubscription(viewId)` closes: the view's open subscription, if any. */
  function ClosedNow(subscriptions: map<string, nat>, zapClosed: map<string, bool>, viewId: string): seq<nat>
  {
    if viewId in subscriptions && viewId in zapClosed && !zapClosed[viewId] then [subscriptions[viewId]] else []
  }

  /**
   * Handles are issued in increasing order and never shared between views; a view's
   * subscription is marked closed exactly when its handle was closed, and no handle is closed twice.
   */
  ghost predicate HandlesConsistent(subscriptions: map<string, nat>, zapClosed: map<string, bool>, closeLog: seq<nat>, nextHandle: nat)
  {
    && subscriptions.Keys == zapClosed.Keys
    && (forall v :: v in subscriptions ==> subscriptions[v] < nextHandle)
    && (forall v :: v in subscriptions ==> (zapClosed[v] <==> subscriptions[v] in closeLog))
    && (forall v, w :: v in subscriptions && w in subscriptions && v != w ==> subscriptions[v] != subscriptions[w])
    && (forall i :: 0 <= i < |closeLog| ==> closeLog[i] < nextHandle)
    && (forall i, j :: 0 <= i < j < |closeLog| ==> closeLog[i] != closeLog[j])
  }

  /**
   * Closing a view's subscription and issuing it the next handle keeps the handles consistent.
   */
  lemma ResubscribeKeepsHandlesConsistent(subscriptions: map<string, nat>, zapClosed: map<string, bool>, closeLog: seq<nat>, nextHandle: nat, viewId: string)
    requires HandlesConsistent(subscriptions, zapClosed, closeLog, nextHandle)
    ensures HandlesConsistent(subscriptions[viewId := nextHandle], zapClosed[viewId := false],
                              closeLog + ClosedNow(subscriptions, zapClosed, viewId), nextHandle + 1)
  {
    var log := closeLog + ClosedNow(subscriptions, zapClosed, viewId);
    assert forall i :: 0 <= i < |log| ==> log[i] < nextHandle;
  }

  /** How `getOrCreateFetchPromise` ended for a reference: settled (with an event or null), or threw. */
  datatype FetchOutcome = Settled(value: Option<Event>) | Threw

  class ZapPoolManager {
    /** The current zap subscription handle of each view. */
    var subscriptions: map<string, nat>
    /** `state.get(viewId).isZapClosed` */
    var zapClosed: map<string, bool>
    /** Every `close()` call on a zap subscription, in order. */
    var closeLog: seq<nat>
    var nextHandle: nat
    var isConnected: bool
    /** Every `ensureRelay(url)` attempt, in order. */
    var ensureRelayLog: seq<string>
    /** The reference cache: event id to referenced event. */
    var references: map<string, Event>
    const referenceProcessor: ReferenceProcessor

    ghost predicate Valid()
      reads this
    {
      HandlesConsistent(subscriptions, zapClosed, closeLog, nextHandle)
    }

    constructor ()
      ensures Valid() && fresh(referenceProcessor)
      ensures subscriptions == map[] && closeLog == [] && !isConnected && references == map[]
    {
      subscriptions := map[];
      zapClosed := map[];
      closeLog := [];
      nextHandle := 0;
      isConnected := false;
      ensureRelayLog := [];
      references := map[];
      referenceProcessor := new ReferenceProcessor();
    }

    /**
     * `connectToRelays(zapRelayUrls)`: once connected, a no-op; otherwise every profile
     * relay and every zap relay is attempted (failures are swallowed) and the pool is marked connected.
     */
    method ConnectToRelays(zapRelayUrls: seq<string>)
      modifies this`isConnected, this`ensureRelayLog
      ensures old(isConnected) ==> isConnected && ensureRelayLog == old(ensureRelayLog)
      ensures !old(isConnected) ==> isConnected && ensureRelayLog == old(ensureRelayLog) + AppSettings.PROFILE_RELAYS + zapRelayUrls
    {
      if isConnected {
        return;
      }
      ensureRelayLog := ensureRelayLog + AppSettings.PROFILE_RELAYS;
      ensureRelayLog := ensureRelayLog + zapRelayUrls;
      isConnected := true;
    }

    /** `closeSubscription(viewId)`: closes the view's subscription unless it is absent or already closed. */
    method CloseSubscription(viewId: string)
      requires Valid()
      modifies this`zapClosed, this`closeLog
      ensures Valid()
      ensures closeLog == old(closeLog) + ClosedNow(subscriptions, old(zapClosed), viewId)
      ensures zapClosed == if viewId in subscriptions then old(zapClosed)[viewId := true] else old(zapClosed)
    {
      if viewId in subscriptions && !zapClosed[viewId] {
        closeLog := closeLog + [subscriptions[viewId]];
        zapClosed := zapClosed[viewId := true];
      }
    }

    /** `subscribeToZaps(viewId, ...)`: closes the view's previous subscription, then opens a new one. */
    method SubscribeToZaps(viewId: string) returns (handle: nat)
      requires Valid()
      modifies this`subscriptions, this`zapClosed, this`closeLog, this`nextHandle
      ensures Valid()
      ensures handle == old(nextHandle) && nextHandle == handle + 1
      ensures subscriptions == old(subscriptions)[viewId := handle]
      ensures zapClosed == old(zapClosed)[viewId := false]
      ensures closeLog == old(closeLog) + ClosedNow(old(subscriptions), old(zapClosed), viewId)
    {
      ResubscribeKeepsHandlesConsistent(subscriptions, zapClosed, closeLog, nextHandle, viewId);
      CloseSubscription(viewId);
      handle := nextHandle;
      nextHandle := nextHandle + 1;
      subscriptions := subscriptions[viewId := handle];
      zapClosed := zapClosed[viewId := false];
    }

    /**
     * `fetchReference(relayUrls, eventId)`: null for a missing id or relay list; a cached
     * reference without fetching; otherwise the fetched value, cached only when non-null.
     * A thrown fetch falls back to the cache, which still misses.
     */
    method FetchReference(relayUrls: Option<seq<string>>, eventId: string, outcome: FetchOutcome) returns (r: Option<Event>)
      modifies this`references, referenceProcessor`relayUrls
      ensures eventId == "" || relayUrls.None? ==>
                r == None && references == old(references) && referenceProcessor.relayUrls == old(referenceProcessor.relayUrls)
      ensures eventId != "" && relayUrls.Some? && eventId in old(references) ==>
                r == Some(old(references)[eventId]) && references == old(references)
                && referenceProcessor.relayUrls == old(referenceProcessor.relayUrls)
      ensures eventId != "" && relayUrls.Some? && eventId !in old(references) ==>
                && referenceProcessor.relayUrls == relayUrls
                && r == (if outcome.Settled? then outcome.value else None)
                && references == (if r.Some? then old(references)[eventId := r.value] else old(references))
    {
      if eventId == "" || relayUrls.None? {
        return None;
      }
      if eventId in references {
        return Some(references[eventId]);
      }
      referenceProcessor.SetRelayUrls(relayUrls);
      match outcome {
        case Threw =>
          // the catch re-reads the cache, which has not changed since the miss above
          r := None;
        case Settled(value) =>
          if value.Some? {
            references := references[eventId := value.value];
          }
          r := value;
      }
    }
  }
}
