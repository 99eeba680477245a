/**
 * The balance summary of the `EntryManager` component: the room's total is
 * split equally among its members; the viewer's net is what they paid minus
 * their share, and every other member's balance is the share minus what that
 * member paid. Amounts are exact reals.
 */
module EntryManager {

  /** `{ id, username }` of a room member or of an entry's payer. */
  datatype Member = Member(id: string, username: string)

  datatype Entry = Entry(id: string, amount: real, description: string, createdAt: string, payer: Member)

  /** A room with its entries and its members (`room.users[i].user`). */
  datatype Room = Room(id: string, code: string, entries: seq<Entry>, users: seq<Member>)

  /** `entries.filter(e => e.user.id === id).reduce((sum, e) => sum + e.amount, 0)`. */
  function PaidBy(entries: seq<Entry>, id: string): (r: real)
  {
    if entries == [] then 0.0
    else (if entries[0].payer.id == id then entries[0].amount else 0.0) + PaidBy(entries[1..], id)
  }

  /**
   * The filter by payer picks the right entries: nothing is counted when no
   * entry was paid by `id`, and everything when all of them were.
   */
  lemma {:induction false} PaidByFilters(entries: seq<Entry>, id: string)
    ensures (forall e | e in entries :: e.payer.id != id) ==> PaidBy(entries, id) == 0.0
    ensures (forall e | e in entries :: e.payer.id == id) ==> PaidBy(entries, id) == TotalSpent(entries)
    decreases |entries|
  {
    if entries != [] {
      assert forall e | e in entries[1..] :: e in entries;
      PaidByFilters(entries[1..], id);
    }
  }

  /** `entries.reduce((sum, e) => sum + e.amount, 0)`. */
  function TotalSpent(entries: seq<Entry>): (r: real)
    ensures (forall e | e in entries :: e.amount >= 0.0) ==> r >= 0.0
  {
    if entries == [] then 0.0 else entries[0].amount + TotalSpent(entries[1..])
  }

  /** `userShare`: the room total over the member count, 0 for a room without members. */
  function Share(room: Room): (s: real)
    ensures |room.users| == 0 ==> s == 0.0
    ensures |room.users| > 0 ==> s * (|room.users| as real) == TotalSpent(room.entries)
  {
    if |room.users| > 0 then TotalSpent(room.entries) / (|room.users| as real) else 0.0
  }

  /** `totalOwedToUser`: positive when the others owe the viewer. */
  function TotalOwed(room: Room, userId: string): (r: real)
    ensures room.entries == [] ==> r == 0.0
    ensures |room.users| == 0 ==> r == PaidBy(room.entries, userId)
  {
    PaidBy(room.entries, userId) - Share(room)
  }

  /** `room.users.filter(u => u.user.id !== userId)`. */
  function Others(users: seq<Member>, userId: string): (others: seq<Member>)
    ensures |others| <= |users|
    ensures forall m :: m in others <==> m in users && m.id != userId
  {
    if users == [] then []
    else if users[0].id == userId then Others(users[1..], userId)
    else [users[0]] + Others(users[1..], userId)
  }

  /**
   * The one key a plain object `{}` cannot hold a number under: assigning to
   * `__proto__` goes to the setter inherited from `Object.prototype`, which
   * ignores a value that is not an object, so no own property appears.
   */
  const ProtoKey := "__proto__"

  /**
   * The `balances` record after the `forEach` has visited `visited`, in order:
   * a later member with the same username overwrites, and a member named
   * `__proto__` leaves the record as it was.
   */
  function BalanceMap(visited: seq<Member>, share: real, entries: seq<Entry>): map<string, real>
  {
    if visited == [] then map[]
    else
      var last := visited[|visited| - 1];
      var before := BalanceMap(visited[..|visited| - 1], share, entries);
      if last.username == ProtoKey then before else before[last.username := share - PaidBy(entries, last.id)]
  }

  /** `userBalances` as a function of the room and the viewer. */
  function Balances(room: Room, userId: string): map<string, real>
  {
    BalanceMap(Others(room.users, userId), Share(room), room.entries)
  }

  /**
   * The `useMemo` computation: the viewer's net, and one balance per other
   * member filled in by a loop over the other members.
   */
  method ComputeBalances(room: Room, userId: string) returns (totalOwed: real, userBalances: map<string, real>)
    ensures totalOwed == TotalOwed(room, userId)
    ensures userBalances == Balances(room, userId)
    ensures userBalances.Keys == set m | m in room.users && m.id != userId && m.username != ProtoKey :: m.username
  {
    var totalPaidByUser := PaidBy(room.entries, userId);
    var totalSpentInRoom := TotalSpent(room.entries);
    var numUsers := |room.users|;
    var userShare := if numUsers > 0 then totalSpentInRoom / (numUsers as real) else 0.0;
    totalOwed := totalPaidByUser - userShare;
    var otherUsers := Others(room.users, userId);
    userBalances := map[];
    for i := 0 to |otherUsers|
      invariant userBalances == BalanceMap(otherUsers[..i], userShare, room.entries)
    {
      var otherUser := otherUsers[i];
      var paidByOther := PaidBy(room.entries, otherUser.id);
      var debt := userShare - paidByOther;
      assert otherUsers[..i + 1][..i] == otherUsers[..i];
      // `balances[name] = debt`: for `__proto__` the inherited setter drops the number
      if otherUser.username != ProtoKey {
        userBalances := userBalances[otherUser.username := debt];
      }
    }
    assert otherUsers[..|otherUsers|] == otherUsers;
    BalanceKeys(otherUsers, userShare, room.entries);
  }

  /** The balance record has exactly the visited members' usernames as keys, except `__proto__`. */
  lemma {:induction false} BalanceKeys(visited: seq<Member>, share: real, entries: seq<Entry>)
    ensures BalanceMap(visited, share, entries).Keys == set m | m in visited && m.username != ProtoKey :: m.username
    decreases |visited|
  {
    if visited != [] {
      var init := visited[..|visited| - 1];
      BalanceKeys(init, share, entries);
      assert visited == init + [visited[|visited| - 1]];
    }
  }

  /** No two members share a user id (membership rows are unique per user). */
  ghost predicate UniqueIds(users: seq<Member>)
  {
    forall i, j :: 0 <= i < j < |users| ==> users[i].id != users[j].id
  }

  /** Usernames identify users: members with the same username are the same user. */
  ghost predicate UsernamesIdentify(users: seq<Member>)
  {
    forall i, j :: 0 <= i < |users| && 0 <= j < |users| && users[i].username == users[j].username ==>
      users[i].id == users[j].id
  }

  ghost predicate IsMember(users: seq<Member>, id: string)
  {
    exists m :: m in users && m.id == id
  }

  /**
   * With usernames identifying users, each visited member has a balance,
   * the share minus what they paid, unless their username is `__proto__`.
   */
  lemma {:induction false} BalanceOfMember(visited: seq<Member>, share: real, entries: seq<Entry>, m: Member)
    requires UsernamesIdentify(visited)
    requires m in visited
    ensures m.username in BalanceMap(visited, share, entries) <==> m.username != ProtoKey
    ensures m.username != ProtoKey ==> BalanceMap(visited, share, entries)[m.username] == share - PaidBy(entries, m.id)
    decreases |visited|
  {
    BalanceKeys(visited, share, entries);
    var last := visited[|visited| - 1];
    var init := visited[..|visited| - 1];
    if last.username != m.username {
      assert m in init by {
        var i :| 0 <= i < |visited| && visited[i] == m;
        assert i != |visited| - 1;
        assert init[i] == m;
      }
      assert UsernamesIdentify(init) by {
        forall i, j | 0 <= i < |init| && 0 <= j < |init| && init[i].username == init[j].username
          ensures init[i].id == init[j].id
        {
          assert init[i] == visited[i] && init[j] == visited[j];
        }
      }
      BalanceOfMember(init, share, entries, m);
    } else {
      var i :| 0 <= i < |visited| && visited[i] == m;
      assert visited[i].username == visited[|visited| - 1].username;
    }
  }

  /** The viewer's own username is never a key when usernames identify users. */
  lemma ViewerIsNotAKey(room: Room, userId: string, viewer: Member)
    requires UsernamesIdentify(room.users)
    requires viewer in room.users && viewer.id == userId
    ensures viewer.username !in Balances(room, userId)
  {
    var others := Others(room.users, userId);
    BalanceKeys(others, Share(room), room.entries);
  }

  /** The members of `ms` whose balance the record can hold: all but those named `__proto__`. */
  function Shown(ms: seq<Member>): (r: seq<Member>)
    ensures forall m :: m in r <==> m in ms && m.username != ProtoKey
  {
    if ms == [] then []
    else if ms[0].username == ProtoKey then Shown(ms[1..])
    else [ms[0]] + Shown(ms[1..])
  }

  /** The members of `ms` named `__proto__`, whose balance the record drops. */
  function Hidden(ms: seq<Member>): (r: seq<Member>)
    ensures forall m :: m in r <==> m in ms && m.username == ProtoKey
  {
    if ms == [] then []
    else if ms[0].username == ProtoKey then [ms[0]] + Hidden(ms[1..])
    else Hidden(ms[1..])
  }

  /** Sum of the balances recorded for `ms`. */
  function SumOver(ms: seq<Member>, balances: map<string, real>): real
    requires forall m :: m in ms ==> m.username in balances
  {
    if ms == [] then 0.0 else balances[ms[0].username] + SumOver(ms[1..], balances)
  }

  /** Sum over `ms` of what each paid. */
  function SumPaid(ms: seq<Member>, entries: seq<Entry>): real
  {
    if ms == [] then 0.0 else PaidBy(entries, ms[0].id) + SumPaid(ms[1..], entries)
  }

  /** The part of one entry credited to the members `ms`. */
  function Hits(ms: seq<Member>, e: Entry): real
  {
    if ms == [] then 0.0 else (if ms[0].id == e.payer.id then e.amount else 0.0) + Hits(ms[1..], e)
  }

  lemma {:induction false} SumPaidCons(ms: seq<Member>, e: Entry, rest: seq<Entry>)
    ensures SumPaid(ms, [e] + rest) == Hits(ms, e) + SumPaid(ms, rest)
    decreases |ms|
  {
    if ms != [] {
      SumPaidCons(ms[1..], e, rest);
      assert ([e] + rest)[1..] == rest;
    }
  }

  lemma {:induction false} HitsOnce(ms: seq<Member>, e: Entry)
    requires UniqueIds(ms)
    ensures Hits(ms, e) == if IsMember(ms, e.payer.id) then e.amount else 0.0
    decreases |ms|
  {
    if ms != [] {
      HitsOnce(ms[1..], e);
      if ms[0].id != e.payer.id {
        assert IsMember(ms, e.payer.id) ==> IsMember(ms[1..], e.payer.id) by {
          if IsMember(ms, e.payer.id) {
            var m :| m in ms && m.id == e.payer.id;
            assert m in ms[1..];
          }
        }
      }
    }
  }

  /** When every payer is a member, the members' payments add up to the room total. */
  lemma {:induction false} PaymentsCoverTotal(ms: seq<Member>, entries: seq<Entry>)
    requires UniqueIds(ms)
    requires forall e :: e in entries ==> IsMember(ms, e.payer.id)
    ensures SumPaid(ms, entries) == TotalSpent(entries)
    decreases |entries|
  {
    if entries == [] {
      EmptyPayments(ms);
    } else {
      assert entries == [entries[0]] + entries[1..];
      SumPaidCons(ms, entries[0], entries[1..]);
      HitsOnce(ms, entries[0]);
      PaymentsCoverTotal(ms, entries[1..]);
    }
  }

  lemma {:induction false} EmptyPayments(ms: seq<Member>)
    ensures SumPaid(ms, []) == 0.0
    decreases |ms|
  {
    if ms != [] {
      EmptyPayments(ms[1..]);
    }
  }

  /** Splitting the viewer off the members: their payment plus everybody else's. */
  lemma {:induction false} SumPaidWithoutViewer(ms: seq<Member>, entries: seq<Entry>, userId: string)
    requires UniqueIds(ms)
    requires IsMember(ms, userId)
    ensures SumPaid(ms, entries) == PaidBy(entries, userId) + SumPaid(Others(ms, userId), entries)
    ensures |Others(ms, userId)| == |ms| - 1
    decreases |ms|
  {
    if ms[0].id == userId {
      NoOthersMatch(ms[1..], userId);
    } else {
      assert IsMember(ms[1..], userId) by {
        var m :| m in ms && m.id == userId;
        assert m in ms[1..];
      }
      SumPaidWithoutViewer(ms[1..], entries, userId);
      assert Others(ms, userId) == [ms[0]] + Others(ms[1..], userId);
    }
  }

  lemma {:induction false} NoOthersMatch(ms: seq<Member>, userId: string)
    requires forall m :: m in ms ==> m.id != userId
    ensures Others(ms, userId) == ms
    decreases |ms|
  {
    if ms != [] {
      NoOthersMatch(ms[1..], userId);
    }
  }

  /** Sum over `ms` of the share minus what each paid. */
  function SumDebts(ms: seq<Member>, share: real, entries: seq<Entry>): real
  {
    if ms == [] then 0.0 else (share - PaidBy(entries, ms[0].id)) + SumDebts(ms[1..], share, entries)
  }

  /** Splitting the debts between the members the record shows and those it drops. */
  lemma {:induction false} SumDebtsShownHidden(ms: seq<Member>, share: real, entries: seq<Entry>)
    ensures SumDebts(ms, share, entries) == SumDebts(Shown(ms), share, entries) + SumDebts(Hidden(ms), share, entries)
    decreases |ms|
  {
    if ms != [] {
      SumDebtsShownHidden(ms[1..], share, entries);
      if ms[0].username == ProtoKey {
        assert Hidden(ms) == [ms[0]] + Hidden(ms[1..]);
        assert ([ms[0]] + Hidden(ms[1..]))[1..] == Hidden(ms[1..]);
      } else {
        assert Shown(ms) == [ms[0]] + Shown(ms[1..]);
        assert ([ms[0]] + Shown(ms[1..]))[1..] == Shown(ms[1..]);
      }
    }
  }

  /** The balances of `others` add up to their debts: the share minus what each paid. */
  lemma {:induction false} SumOfBalances(others: seq<Member>, balances: map<string, real>, share: real, entries: seq<Entry>)
    requires forall m :: m in others ==> m.username in balances && balances[m.username] == share - PaidBy(entries, m.id)
    ensures SumOver(others, balances) == SumDebts(others, share, entries)
    decreases |others|
  {
    if others != [] {
      SumOfBalances(others[1..], balances, share, entries);
    }
  }

  /** `k` copies of `x` added up. */
  function Times(k: nat, x: real): real
  {
    if k == 0 then 0.0 else x + Times(k - 1, x)
  }

  lemma {:induction false} TimesIsProduct(k: nat, x: real)
    ensures Times(k, x) == (k as real) * x
  {
    if k > 0 {
      TimesIsProduct(k - 1, x);
    }
  }

  lemma {:induction false} SumDebtsSplit(ms: seq<Member>, share: real, entries: seq<Entry>)
    ensures SumDebts(ms, share, entries) == Times(|ms|, share) - SumPaid(ms, entries)
    decreases |ms|
  {
    if ms != [] {
      SumDebtsSplit(ms[1..], share, entries);
    }
  }

  /**
   * When the viewer is a member and every payer is a member, the viewer's net
   * equals the sum of the balances shown for the other members, plus the
   * debt of an other member named `__proto__`, which the record drops.
   */
  lemma ViewerNetIsSumOfOthers(room: Room, userId: string)
    requires UniqueIds(room.users) && UsernamesIdentify(room.users)
    requires IsMember(room.users, userId)
    requires forall e :: e in room.entries ==> IsMember(room.users, e.payer.id)
    ensures |room.users| > 0
    ensures forall m :: m in Shown(Others(room.users, userId)) ==> m.username in Balances(room, userId)
    ensures TotalOwed(room, userId) ==
      SumOver(Shown(Others(room.users, userId)), Balances(room, userId))
      + SumDebts(Hidden(Others(room.users, userId)), Share(room), room.entries)
  {
    var others := Others(room.users, userId);
    var share := Share(room);
    OthersBalancesSum(room.users, userId, share, room.entries);
    SumDebtsShownHidden(others, share, room.entries);
    SumPaidWithoutViewer(room.users, room.entries, userId);
    PaymentsCoverTotal(room.users, room.entries);
    ShareTimesMembers(room);
    SumDebtsSplit(others, share, room.entries);
    assert Times(|room.users|, share) == share + Times(|others|, share);
  }

  /** The balances the record shows for the other members add up to those members' debts. */
  lemma OthersBalancesSum(users: seq<Member>, userId: string, share: real, entries: seq<Entry>)
    requires UsernamesIdentify(users)
    ensures var others := Others(users, userId);
      && (forall m :: m in Shown(others) ==> m.username in BalanceMap(others, share, entries))
      && SumOver(Shown(others), BalanceMap(others, share, entries)) == SumDebts(Shown(others), share, entries)
  {
    var others := Others(users, userId);
    var balances := BalanceMap(others, share, entries);
    assert UsernamesIdentify(others) by {
      forall i, j | 0 <= i < |others| && 0 <= j < |others| && others[i].username == others[j].username
        ensures others[i].id == others[j].id
      {
        assert others[i] in users && others[j] in users;
        var a :| 0 <= a < |users| && users[a] == others[i];
        var b :| 0 <= b < |users| && users[b] == others[j];
      }
    }
    forall m | m in Shown(others)
      ensures m.username in balances && balances[m.username] == share - PaidBy(entries, m.id)
    {
      BalanceOfMember(others, share, entries, m);
    }
    SumOfBalances(Shown(others), balances, share, entries);
  }

  lemma ShareTimesMembers(room: Room)
    requires |room.users| > 0
    ensures Times(|room.users|, Share(room)) == TotalSpent(room.entries)
  {
    TimesIsProduct(|room.users|, Share(room));
  }

  /** With no entries the viewer's net and every balance are 0. */
  lemma ZeroEntries(room: Room, userId: string)
    requires room.entries == []
    ensures TotalOwed(room, userId) == 0.0
    ensures forall name :: name in Balances(room, userId) ==> Balances(room, userId)[name] == 0.0
  {
    ZeroBalances(Others(room.users, userId), room.entries, Share(room));
  }

  lemma {:induction false} ZeroBalances(visited: seq<Member>, entries: seq<Entry>, share: real)
    requires entries == [] && share == 0.0
    ensures forall name :: name in BalanceMap(visited, share, entries) ==> BalanceMap(visited, share, entries)[name] == 0.0
    decreases |visited|
  {
    if visited != [] {
      ZeroBalances(visited[..|visited| - 1], entries, share);
    }
  }

  /** The header's wording: `t('oweYou')` for a non-negative net, `t('youOwe')` otherwise. */
  datatype ViewerLabel = OweYou | YouOwe

  /** A detail line's wording: "<name> owes you" for a positive balance, "You owe <name>" otherwise. */
  datatype MemberLabel = OwesYou | YouOweMember

  function LabelOfNet(totalOwed: real): (l: ViewerLabel)
    ensures l == OweYou <==> totalOwed >= 0.0
  {
    if totalOwed >= 0.0 then OweYou else YouOwe
  }

  function LabelOfBalance(balance: real): (l: MemberLabel)
    ensures l == OwesYou <==> balance > 0.0
  {
    if balance > 0.0 then OwesYou else YouOweMember
  }

  /**
   * In a room of two where every payer is a member, the header and the other
   * member's line agree in direction, except at exactly 0, where the header
   * reads "owe you" and the line reads "You owe". An other member named
   * `__proto__` gets no line at all.
   */
  lemma TwoMemberLabels(room: Room, viewer: Member, other: Member)
    requires room.users == [viewer, other] && viewer.id != other.id && viewer.username != other.username
    requires forall e :: e in room.entries ==> IsMember(room.users, e.payer.id)
    ensures other.username == ProtoKey ==> Balances(room, viewer.id) == map[]
    ensures other.username != ProtoKey ==>
      && other.username in Balances(room, viewer.id)
      && Balances(room, viewer.id)[other.username] == TotalOwed(room, viewer.id)
    ensures other.username != ProtoKey && TotalOwed(room, viewer.id) != 0.0 ==>
      (LabelOfNet(TotalOwed(room, viewer.id)) == OweYou <==>
       LabelOfBalance(Balances(room, viewer.id)[other.username]) == OwesYou)
    ensures other.username != ProtoKey && TotalOwed(room, viewer.id) == 0.0 ==>
      LabelOfNet(0.0) == OweYou && LabelOfBalance(Balances(room, viewer.id)[other.username]) == YouOweMember
  {
    assert IsMember(room.users, viewer.id) by { assert viewer in room.users; }
    var others := Others(room.users, viewer.id);
    assert others == [other] by {
      assert others == Others([other], viewer.id);
    }
    if other.username == ProtoKey {
      assert Balances(room, viewer.id) == BalanceMap([] + [other], Share(room), room.entries);
    } else {
      ViewerNetIsSumOfOthers(room, viewer.id);
      assert Shown(others) == [other] && Hidden(others) == [];
      assert SumOver([other], Balances(room, viewer.id)) == Balances(room, viewer.id)[other.username];
    }
  }
}
