/**
 * The client's durable offline state: the outbox of write requests waiting to
 * be sent, drained oldest first when connectivity returns, and the per-room
 * snapshot store used to show rooms offline and to apply entries
 * optimistically. IndexedDB is modelled by the fields of `OfflineStore`; the
 * network, `crypto.randomUUID` and `Date.now` are parameters.
 */
module OfflineSync {
  import opened Js

  datatype Method = GET | POST | PUT | DELETE

  /** The methods the outbox stores: `'POST' | 'DELETE' | 'PUT'`. */
  type WriteMethod = m: Method | m != GET witness POST

  datatype OutboxRequest = OutboxRequest(
    id: string,
    url: string,
    httpMethod: WriteMethod,
    body: Option<Json>,
    timestamp: int,
    token: Option<string>)

  /** A room as cached locally; `id` is the room id, which is also the record's key. */
  datatype LocalRoomData = LocalRoomData(
    id: string,
    code: string,
    entries: seq<Json>,
    balances: map<string, real>,
    currentUserBalance: real,
    members: seq<Json>,
    currentUserId: Option<int>,
    lastUpdated: int)

  /** What `saveRoomData` is given: a room record without its key and timestamp. */
  datatype RoomFields = RoomFields(
    code: string,
    entries: seq<Json>,
    balances: map<string, real>,
    currentUserBalance: real,
    members: seq<Json>,
    currentUserId: Option<int>)

  datatype NewBalances = NewBalances(currentUserBalance: real, otherBalances: map<string, real>)

  /** What one replayed `fetch` did: answered with a status, or threw. */
  datatype FetchOutcome = Responded(status: int) | NetworkError

  /** `response.ok || (status >= 400 && status < 500)`: success or a permanent client error. */
  predicate Settles(outcome: FetchOutcome)
  {
    outcome.Responded? && (200 <= outcome.status < 300 || 400 <= outcome.status < 500)
  }

  /** An outcome settles iff it is a response in the status class 2xx or 4xx (section 15 of RFC 9110). */
  lemma SettlesIsStatusClass(outcome: FetchOutcome)
    ensures Settles(outcome) <==> outcome.Responded? && (outcome.status / 100 == 2 || outcome.status / 100 == 4)
  {
  }

  function IdsOf(rs: seq<OutboxRequest>): set<string>
  {
    set r | r in rs :: r.id
  }

  /** The object store is keyed by `id`: no two stored requests share one. */
  ghost predicate DistinctIds(rs: seq<OutboxRequest>)
  {
    forall i, j :: 0 <= i < j < |rs| ==> rs[i].id != rs[j].id
  }

  ghost predicate SortedByTime(rs: seq<OutboxRequest>)
  {
    forall i, j :: 0 <= i < j < |rs| ==> rs[i].timestamp <= rs[j].timestamp
  }

  lemma SortedCons(first: OutboxRequest, rest: seq<OutboxRequest>)
    requires SortedByTime(rest)
    requires forall x :: x in rest ==> first.timestamp <= x.timestamp
    ensures SortedByTime([first] + rest)
  {
    var s := [first] + rest;
    forall i, j | 0 <= i < j < |s| ensures s[i].timestamp <= s[j].timestamp {
      assert s[j] == rest[j - 1];
      if i > 0 {
        assert s[i] == rest[i - 1];
      }
    }
  }

  function Insert(r: OutboxRequest, rs: seq<OutboxRequest>): (out: seq<OutboxRequest>)
    requires SortedByTime(rs)
    ensures |out| == |rs| + 1
    ensures SortedByTime(out)
    ensures multiset(out) == multiset(rs) + multiset{r}
  {
    if rs == [] || r.timestamp <= rs[0].timestamp then
      SortedCons(r, rs);
      [r] + rs
    else
      var rest := Insert(r, rs[1..]);
      assert rs == [rs[0]] + rs[1..];
      forall x | x in rs[1..] ensures rs[0].timestamp <= x.timestamp {
        var i :| 0 <= i < |rs[1..]| && rs[1..][i] == x;
        assert rs[i + 1] == x;
      }
      LowerBoundKept(rs[0].timestamp, r, rs[1..], rest);
      SortedCons(rs[0], rest);
      [rs[0]] + rest
  }

  /** Every request in `rs + [r]`, in whatever order, is no earlier than `bound` when each is. */
  lemma LowerBoundKept(bound: int, r: OutboxRequest, rs: seq<OutboxRequest>, out: seq<OutboxRequest>)
    requires multiset(out) == multiset(rs) + multiset{r}
    requires bound <= r.timestamp
    requires forall x :: x in rs ==> bound <= x.timestamp
    ensures forall x :: x in out ==> bound <= x.timestamp
  {
    forall x | x in out ensures bound <= x.timestamp {
      assert x in multiset(out);
      if x != r {
        assert x in multiset(rs);
      }
    }
  }

  /** `requests.sort((a, b) => a.timestamp - b.timestamp)`: ordered by timestamp, same requests. */
  function SortByTime(rs: seq<OutboxRequest>): (out: seq<OutboxRequest>)
    ensures |out| == |rs|
    ensures SortedByTime(out)
    ensures multiset(out) == multiset(rs)
  {
    if rs == [] then []
    else
      assert rs == [rs[0]] + rs[1..];
      Insert(rs[0], SortByTime(rs[1..]))
  }

  /** Requests that are the same multiset carry the same ids. */
  lemma SameRequestsSameIds(a: seq<OutboxRequest>, b: seq<OutboxRequest>)
    requires multiset(a) == multiset(b)
    ensures IdsOf(a) == IdsOf(b)
  {
    forall x ensures x in a <==> x in b {
      assert x in a <==> x in multiset(a);
      assert x in b <==> x in multiset(b);
    }
  }

  /**
   * How many requests the drain deletes when the replayed fetches go as
   * `net` says (attempt i gets `net[i]`; past the end of `net` the network is down):
   * the length of the run of settling outcomes at the front, at most `n`.
   */
  function Drained(net: seq<FetchOutcome>, n: nat): (k: nat)
    ensures k <= n && k <= |net|
    ensures forall j :: 0 <= j < k ==> Settles(net[j])
    ensures k < n && k < |net| ==> !Settles(net[k])
  {
    if n == 0 || net == [] || !Settles(net[0]) then 0 else 1 + Drained(net[1..], n - 1)
  }

  /** The outcome of replay attempt `i`. */
  function Attempt(net: seq<FetchOutcome>, i: nat): FetchOutcome
  {
    if i < |net| then net[i] else NetworkError
  }

  /** Attempt `i` settles exactly while `i` is below the number drained. */
  lemma DrainedStops(net: seq<FetchOutcome>, n: nat, i: nat)
    requires i < n && i <= Drained(net, n)
    ensures Settles(Attempt(net, i)) <==> i < Drained(net, n)
  {
  }

  /** The stored requests left after deleting the given ids, in store order. */
  function WithoutIds(rs: seq<OutboxRequest>, ids: set<string>): seq<OutboxRequest>
  {
    if rs == [] then []
    else if rs[0].id in ids then WithoutIds(rs[1..], ids)
    else [rs[0]] + WithoutIds(rs[1..], ids)
  }

  lemma {:induction false} WithoutIdsCount(rs: seq<OutboxRequest>, ids: set<string>, x: OutboxRequest)
    ensures multiset(WithoutIds(rs, ids))[x] == if x.id in ids then 0 else multiset(rs)[x]
  {
    if rs != [] {
      WithoutIdsCount(rs[1..], ids, x);
      assert rs == [rs[0]] + rs[1..];
    }
  }

  lemma {:induction false} WithoutIdsKeepsOthers(rs: seq<OutboxRequest>, ids: set<string>)
    requires forall i :: 0 <= i < |rs| ==> rs[i].id !in ids
    ensures WithoutIds(rs, ids) == rs
  {
    if rs != [] {
      WithoutIdsKeepsOthers(rs[1..], ids);
    }
  }

  lemma {:induction false} SortKeepsDistinct(rs: seq<OutboxRequest>)
    requires DistinctIds(rs)
    ensures DistinctIds(SortByTime(rs))
  {
    if rs != [] {
      SortKeepsDistinct(rs[1..]);
      var tail := SortByTime(rs[1..]);
      SameRequestsSameIds(tail, rs[1..]);
      assert rs[0].id !in IdsOf(rs[1..]);
      InsertKeepsDistinct(rs[0], tail);
    }
  }

  lemma {:induction false} InsertKeepsDistinct(r: OutboxRequest, rs: seq<OutboxRequest>)
    requires SortedByTime(rs) && DistinctIds(rs) && r.id !in IdsOf(rs)
    ensures DistinctIds(Insert(r, rs))
  {
    var out := Insert(r, rs);
    if rs == [] || r.timestamp <= rs[0].timestamp {
      assert out == [r] + rs;
      forall j | 0 <= j < |rs| ensures rs[j].id != r.id {
        assert rs[j] in rs;
      }
    } else {
      assert r.id !in IdsOf(rs[1..]);
      InsertKeepsDistinct(r, rs[1..]);
      var rest := Insert(r, rs[1..]);
      assert out == [rs[0]] + rest;
      forall j | 0 <= j < |rest| ensures rest[j].id != rs[0].id {
        assert rest[j] in multiset(rest);
        if rest[j] != r {
          assert rest[j] in rs[1..];
          var m :| 0 <= m < |rs[1..]| && rs[1..][m] == rest[j];
          assert rs[m + 1] == rest[j];
        } else {
          assert rs[0] in rs;
        }
      }
    }
  }

  /**
   * After the drain the queue holds exactly the sorted requests from the first
   * one that did not settle onwards (as a multiset: the store keeps its own
   * order), and it has shrunk by the number deleted.
   */
  lemma RemainingIsSortedSuffix(stored: seq<OutboxRequest>, k: nat)
    requires DistinctIds(stored)
    requires k <= |stored|
    ensures var sorted := SortByTime(stored);
      && multiset(WithoutIds(stored, IdsOf(sorted[..k]))) == multiset(sorted[k..])
      && |WithoutIds(stored, IdsOf(sorted[..k]))| == |stored| - k
  {
    var sorted := SortByTime(stored);
    SortKeepsDistinct(stored);
    var gone := IdsOf(sorted[..k]);
    var left := WithoutIds(stored, gone);
    WithoutIdsRespectsPermutation(stored, sorted, gone);
    WithoutIdsSplit(sorted, k);
    assert |left| == |multiset(left)| == |multiset(sorted[k..])|;
  }

  lemma WithoutIdsRespectsPermutation(a: seq<OutboxRequest>, b: seq<OutboxRequest>, ids: set<string>)
    requires multiset(a) == multiset(b)
    ensures multiset(WithoutIds(a, ids)) == multiset(WithoutIds(b, ids))
  {
    forall x ensures multiset(WithoutIds(a, ids))[x] == multiset(WithoutIds(b, ids))[x] {
      WithoutIdsCount(a, ids, x);
      WithoutIdsCount(b, ids, x);
    }
  }

  lemma WithoutIdsSplit(sorted: seq<OutboxRequest>, k: nat)
    requires DistinctIds(sorted) && k <= |sorted|
    ensures WithoutIds(sorted, IdsOf(sorted[..k])) == sorted[k..]
  {
    var gone := IdsOf(sorted[..k]);
    assert forall i :: 0 <= i < |sorted[k..]| ==> sorted[k..][i].id !in gone;
    WithoutIdsKeepsOthers(sorted[k..], gone);
    WithoutIdsDropsPrefix(sorted, k, gone);
  }

  lemma {:induction false} WithoutIdsDropsPrefix(rs: seq<OutboxRequest>, k: nat, gone: set<string>)
    requires k <= |rs|
    requires forall i :: 0 <= i < k ==> rs[i].id in gone
    ensures WithoutIds(rs, gone) == WithoutIds(rs[k..], gone)
  {
    if k > 0 {
      WithoutIdsDropsPrefix(rs[1..], k - 1, gone);
      assert rs[1..][k - 1..] == rs[k..];
    }
  }

  class OfflineStore {
    /** The `outbox` object store, keyed by request id. */
    var outbox: seq<OutboxRequest>
    /** The `room-data` object store, keyed by room id. */
    var rooms: map<string, LocalRoomData>
    /** How many `outboxchange` events have been dispatched on the window. */
    var outboxChanges: nat

    ghost predicate Valid()
      reads this
    {
      DistinctIds(outbox) && forall id :: id in rooms ==> rooms[id].id == id
    }

    constructor ()
      ensures Valid()
      ensures outbox == [] && rooms == map[] && outboxChanges == 0
    {
      outbox := [];
      rooms := map[];
      outboxChanges := 0;
    }

    /**
     * `addToOutbox`: stores the request under the fresh id `id` stamped with
     * `now`, and announces the change. `db.add` rejects an id that is already
     * stored; then nothing changes and the call fails (None).
     */
    method AddToOutbox(url: string, httpMethod: WriteMethod, body: Option<Json>, token: Option<string>, id: string, now: int)
      returns (stored: Option<OutboxRequest>)
      requires Valid()
      modifies this
      ensures Valid()
      ensures rooms == old(rooms)
      ensures id in IdsOf(old(outbox)) ==>
        stored.None? && outbox == old(outbox) && outboxChanges == old(outboxChanges)
      ensures id !in IdsOf(old(outbox)) ==>
        && stored == Some(OutboxRequest(id, url, httpMethod, body, now, token))
        && outbox == old(outbox) + [stored.value]
        && outboxChanges == old(outboxChanges) + 1
    {
      if id in IdsOf(outbox) {
        return None;
      }
      var request := OutboxRequest(id, url, httpMethod, body, now, token);
      outbox := outbox + [request];
      outboxChanges := outboxChanges + 1;
      return Some(request);
    }

    /** `getOutboxCount`: the number of stored requests. */
    method GetOutboxCount() returns (count: nat)
      requires Valid()
      ensures count == |outbox| == |IdsOf(outbox)|
    {
      count := |outbox|;
      DistinctIdsCount(outbox);
    }

    /**
     * `syncOutbox`: replays the stored requests in timestamp order. A request
     * that settles (2xx or 4xx) is deleted and the next one is tried; any other
     * status or a thrown error stops the drain. `sent` lists the requests that
     * were fetched, in order; `didSync` says whether any was deleted.
     */
    method SyncOutbox(net: seq<FetchOutcome>) returns (didSync: bool, sent: seq<OutboxRequest>)
      requires Valid()
      modifies this
      ensures Valid()
      ensures rooms == old(rooms)
      ensures var sorted := SortByTime(old(outbox));
        var k := Drained(net, |sorted|);
        && didSync == (k > 0)
        && sent == sorted[..if k < |sorted| then k + 1 else k]
        && outbox == WithoutIds(old(outbox), IdsOf(sorted[..k]))
        && outboxChanges == old(outboxChanges) + k
    {
      var requests := outbox;
      if |requests| == 0 {
        return false, [];
      }
      requests := SortByTime(requests);
      didSync := false;
      sent := [];
      ghost var k := Drained(net, |requests|);
      WithoutIdsKeepsOthers(outbox, {});
      assert IdsOf(requests[..0]) == {};
      var i := 0;
      while i < |requests|
        invariant 0 <= i <= k
        invariant didSync == (i > 0)
        invariant sent == requests[..i]
        invariant outbox == WithoutIds(old(outbox), IdsOf(requests[..i]))
        invariant outboxChanges == old(outboxChanges) + i
        invariant rooms == old(rooms)
      {
        var req := requests[i];
        assert requests[..i + 1] == requests[..i] + [req];
        sent := sent + [req];
        var outcome := Attempt(net, i);
        DrainedStops(net, |requests|, i);
        if Settles(outcome) {
          DeleteOne(old(outbox), requests[..i], req);
          outbox := WithoutIds(outbox, {req.id});
          outboxChanges := outboxChanges + 1;
          didSync := true;
          i := i + 1;
        } else {
          break;
        }
      }
      assert i == k;
      DistinctAfterDelete(old(outbox), IdsOf(requests[..i]));
    }

    /** The record stored under `roomId`, if any. */
    function Lookup(roomId: string): Option<LocalRoomData>
      reads this
    {
      if roomId in rooms then Some(rooms[roomId]) else None
    }

    /**
     * `saveRoomData`: `db.put` of the fields under key `roomId`, stamped with
     * `now`; an existing record is replaced, the other rooms and the outbox
     * are untouched.
     */
    method SaveRoomData(roomId: string, data: RoomFields, now: int)
      requires Valid()
      modifies this
      ensures Valid()
      ensures Lookup(roomId) == Some(Stamped(roomId, data, now))
      ensures forall other :: other != roomId ==> Lookup(other) == old(Lookup(other))
      ensures rooms.Keys == old(rooms.Keys) + {roomId}
      ensures outbox == old(outbox) && outboxChanges == old(outboxChanges)
    {
      rooms := rooms[roomId := Stamped(roomId, data, now)];
    }

    /** `getRoomData`: the record under `roomId`, or `undefined` (None). */
    method GetRoomData(roomId: string) returns (data: Option<LocalRoomData>)
      requires Valid()
      ensures data == Lookup(roomId)
      ensures data.Some? ==> data.value.id == roomId
    {
      if roomId in rooms {
        return Some(rooms[roomId]);
      }
      return None;
    }

    /**
     * `addLocalEntry`: when the room is stored, the entry goes to the front of
     * its entries, the balances are replaced by the new ones and the record is
     * re-stamped; when it is not, nothing is written.
     */
    method AddLocalEntry(roomId: string, newEntry: Json, newBalances: NewBalances, now: int)
      requires Valid()
      modifies this
      ensures Valid()
      ensures Lookup(roomId) == match old(Lookup(roomId))
        case None => None
        case Some(r) => Some(WithEntry(r, newEntry, newBalances, now))
      ensures forall other :: other != roomId ==> Lookup(other) == old(Lookup(other))
      ensures outbox == old(outbox) && outboxChanges == old(outboxChanges)
    {
      if roomId in rooms {
        rooms := rooms[roomId := WithEntry(rooms[roomId], newEntry, newBalances, now)];
      }
    }
  }

  /** The record `saveRoomData` writes. */
  function Stamped(roomId: string, data: RoomFields, now: int): (r: LocalRoomData)
    ensures r.id == roomId && r.lastUpdated == now
    ensures RoomFields(r.code, r.entries, r.balances, r.currentUserBalance, r.members, r.currentUserId) == data
  {
    LocalRoomData(roomId, data.code, data.entries, data.balances, data.currentUserBalance,
      data.members, data.currentUserId, now)
  }

  /** A stored room after an optimistic entry: newest entry first, balances replaced. */
  function WithEntry(r: LocalRoomData, newEntry: Json, newBalances: NewBalances, now: int): (out: LocalRoomData)
    ensures out.id == r.id && out.code == r.code && out.members == r.members
    ensures out.currentUserId == r.currentUserId
    ensures |out.entries| == |r.entries| + 1
    ensures out.entries[0] == newEntry && out.entries[1..] == r.entries
    ensures out.currentUserBalance == newBalances.currentUserBalance
    ensures out.balances == newBalances.otherBalances
    ensures out.lastUpdated == now
  {
    r.(entries := [newEntry] + r.entries,
       currentUserBalance := newBalances.currentUserBalance,
       balances := newBalances.otherBalances,
       lastUpdated := now)
  }

  /** Entries added optimistically one after another come out newest first, ahead of the saved ones. */
  lemma {:induction false} EntriesNewestFirst(r: LocalRoomData, added: seq<Json>, b: NewBalances, now: int)
    ensures ApplyEntries(r, added, b, now).entries == Reversed(added) + r.entries
    ensures ApplyEntries(r, added, b, now).id == r.id
    decreases |added|
  {
    if added != [] {
      EntriesNewestFirst(WithEntry(r, added[0], b, now), added[1..], b, now);
      assert Reversed(added) == Reversed(added[1..]) + [added[0]];
    }
  }

  function ApplyEntries(r: LocalRoomData, added: seq<Json>, b: NewBalances, now: int): LocalRoomData
    decreases |added|
  {
    if added == [] then r else ApplyEntries(WithEntry(r, added[0], b, now), added[1..], b, now)
  }

  function Reversed<T>(s: seq<T>): seq<T>
  {
    if s == [] then [] else Reversed(s[1..]) + [s[0]]
  }

  lemma {:induction false} DeleteOne(stored: seq<OutboxRequest>, done: seq<OutboxRequest>, req: OutboxRequest)
    ensures WithoutIds(WithoutIds(stored, IdsOf(done)), {req.id}) == WithoutIds(stored, IdsOf(done + [req]))
  {
    assert IdsOf(done + [req]) == IdsOf(done) + {req.id};
    WithoutIdsTwice(stored, IdsOf(done), {req.id});
  }

  lemma {:induction false} WithoutIdsTwice(rs: seq<OutboxRequest>, a: set<string>, b: set<string>)
    ensures WithoutIds(WithoutIds(rs, a), b) == WithoutIds(rs, a + b)
  {
    if rs != [] {
      WithoutIdsTwice(rs[1..], a, b);
    }
  }

  lemma {:induction false} DistinctAfterDelete(rs: seq<OutboxRequest>, ids: set<string>)
    requires DistinctIds(rs)
    ensures DistinctIds(WithoutIds(rs, ids))
  {
    if rs != [] {
      DistinctAfterDelete(rs[1..], ids);
      var tail := WithoutIds(rs[1..], ids);
      forall j | 0 <= j < |tail| ensures tail[j].id != rs[0].id {
        assert tail[j] in multiset(tail);
        WithoutIdsCount(rs[1..], ids, tail[j]);
        assert tail[j] in rs[1..];
      }
    }
  }

  lemma {:induction false} DistinctIdsCount(rs: seq<OutboxRequest>)
    requires DistinctIds(rs)
    ensures |IdsOf(rs)| == |rs|
  {
    if rs != [] {
      DistinctIdsCount(rs[1..]);
      assert IdsOf(rs) == {rs[0].id} + IdsOf(rs[1..]);
      assert rs[0].id !in IdsOf(rs[1..]);
    }
  }
}
