/**
 * The `SyncProvider` component's state machine: the `isOnline` and
 * `isSyncing` flags it publishes, the drain of the outbox when the browser
 * comes back online, and the `syncdone` event that tells pages to refetch.
 * The browser's `online`/`offline` events and the initial mount are method
 * calls; every value the context takes is recorded in `published`.
 */
module SyncProviderModel {
  import opened OfflineSync

  /** The value of the sync context: `{ isOnline, isSyncing }`. */
  datatype SyncContext = SyncContext(isOnline: bool, isSyncing: bool)

  class SyncProvider {
    var isOnline: bool
    var isSyncing: bool
    /** The context value after each state-setter call, in order (React may batch several into one render). */
    var published: seq<SyncContext>
    /** How many `syncdone` events have been dispatched on the window. */
    var syncDoneEvents: nat

    /** `useState(true)` and `useState(false)`. */
    constructor ()
      ensures isOnline && !isSyncing
      ensures published == [] && syncDoneEvents == 0
    {
      isOnline := true;
      isSyncing := false;
      published := [];
      syncDoneEvents := 0;
    }

    method SetIsOnline(value: bool)
      modifies this
      ensures isOnline == value && isSyncing == old(isSyncing)
      ensures published == old(published) + [SyncContext(value, old(isSyncing))]
      ensures syncDoneEvents == old(syncDoneEvents)
    {
      isOnline := value;
      published := published + [SyncContext(isOnline, isSyncing)];
    }

    method SetIsSyncing(value: bool)
      modifies this
      ensures isSyncing == value && isOnline == old(isOnline)
      ensures published == old(published) + [SyncContext(old(isOnline), value)]
      ensures syncDoneEvents == old(syncDoneEvents)
    {
      isSyncing := value;
      published := published + [SyncContext(isOnline, isSyncing)];
    }

    /**
     * `handleOnline`: online and syncing are published before the drain
     * starts; `syncdone` is dispatched exactly when the drain deleted
     * something; a drain that throws (`storeFails`: the database cannot be
     * read, so nothing is deleted) is swallowed; `isSyncing` ends false either way.
     */
    method HandleOnline(store: OfflineStore, net: seq<FetchOutcome>, storeFails: bool)
      requires store.Valid()
      modifies this, store
      ensures store.Valid()
      ensures isOnline && !isSyncing
      ensures published == old(published) + [SyncContext(true, old(isSyncing))] + [SyncContext(true, true)] + [SyncContext(true, false)]
      ensures storeFails ==>
        && syncDoneEvents == old(syncDoneEvents)
        && store.outbox == old(store.outbox) && store.outboxChanges == old(store.outboxChanges)
      ensures !storeFails ==>
        var k := Drained(net, |old(store.outbox)|);
        && syncDoneEvents == old(syncDoneEvents) + (if k > 0 then 1 else 0)
        && store.outbox == WithoutIds(old(store.outbox), IdsOf(SortByTime(old(store.outbox))[..k]))
        && store.outboxChanges == old(store.outboxChanges) + k
      ensures store.rooms == old(store.rooms)
    {
      SetIsOnline(true);
      SetIsSyncing(true);
      if !storeFails {
        var success, _ := store.SyncOutbox(net);
        if success {
          syncDoneEvents := syncDoneEvents + 1;
        }
      }
      SetIsSyncing(false);
    }

    /** `handleOffline`: only `isOnline` changes. */
    method HandleOffline()
      modifies this
      ensures !isOnline && isSyncing == old(isSyncing)
      ensures published == old(published) + [SyncContext(false, old(isSyncing))]
      ensures syncDoneEvents == old(syncDoneEvents)
    {
      SetIsOnline(false);
    }

    /**
     * The mount effect: publishes `navigator.onLine`, then runs the initial
     * sync only when the navigator reports online.
     */
    method Mount(navigatorOnline: bool, store: OfflineStore, net: seq<FetchOutcome>, storeFails: bool)
      requires store.Valid()
      modifies this, store
      ensures store.Valid()
      ensures isOnline == navigatorOnline
      ensures isSyncing == (old(isSyncing) && !navigatorOnline)
      ensures store.rooms == old(store.rooms)
      ensures !navigatorOnline ==>
        && published == old(published) + [SyncContext(false, old(isSyncing))]
        && syncDoneEvents == old(syncDoneEvents)
        && store.outbox == old(store.outbox) && store.outboxChanges == old(store.outboxChanges)
      ensures navigatorOnline ==>
        && published == old(published) + [SyncContext(true, old(isSyncing))] + [SyncContext(true, old(isSyncing))]
                                   + [SyncContext(true, true)] + [SyncContext(true, false)]
        && (storeFails || Drained(net, |old(store.outbox)|) == 0 <==> syncDoneEvents == old(syncDoneEvents))
      ensures navigatorOnline && storeFails ==>
        store.outbox == old(store.outbox) && store.outboxChanges == old(store.outboxChanges)
      ensures navigatorOnline && !storeFails ==>
        var k := Drained(net, |old(store.outbox)|);
        && syncDoneEvents == old(syncDoneEvents) + (if k > 0 then 1 else 0)
        && store.outbox == WithoutIds(old(store.outbox), IdsOf(SortByTime(old(store.outbox))[..k]))
        && store.outboxChanges == old(store.outboxChanges) + k
    {
      SetIsOnline(navigatorOnline);
      if navigatorOnline {
        HandleOnline(store, net, storeFails);
      }
    }
  }
}
