/**
 * The ticket store as the bot uses it: `tickets` maps each user id to the
 * ordered list of that user's ticket records (closed ones stay as
 * history) and `counter` holds the last ticket number handed out.  The
 * order in which `for (const uid in data.tickets)` visits the users is
 * kept explicitly in `order`: a user is appended when first stored,
 * keeps its place when its list is rewritten, and leaves on deletion.
 */
module TicketStore {
  import opened Wrappers

  type UserId = string
  type ChannelId = string

  /** One ticket record, as built at bot.js lines 148-158 and completed at 489-491. */
  datatype Ticket = Ticket(
    channelId: ChannelId,
    userId: UserId,
    userTag: string,
    kind: string,            // the record's `type`
    description: string,
    open: bool,
    createdAt: string,
    number: int,
    openedBy: string,
    closedAt: Option<string>,
    closedBy: Option<string>)

  datatype Store = Store(tickets: map<UserId, seq<Ticket>>, order: seq<UserId>, counter: Option<int>)

  /** `{ tickets: {}, counter: 0 }`. */
  const InitialStore: Store := Store(map[], [], Some(0))

  predicate Distinct(xs: seq<UserId>) {
    forall i, j :: 0 <= i < j < |xs| ==> xs[i] != xs[j]
  }

  /** `order` lists every key of `tickets` exactly once. */
  ghost predicate WellFormed(s: Store) {
    Distinct(s.order) && (forall u :: u in s.tickets <==> u in s.order)
  }

  /** `await db.get('tickets.' + userId) || []`. */
  function UserTickets(s: Store, userId: UserId): seq<Ticket> {
    if userId in s.tickets then s.tickets[userId] else []
  }

  /** `await db.get('counter') || 0`. */
  function CounterOrZero(s: Store): int {
    match s.counter
    case None => 0
    case Some(n) => n
  }

  /** `db.set('tickets.' + userId, ts)`. */
  function PutUserTickets(s: Store, userId: UserId, ts: seq<Ticket>): (r: Store)
    ensures r.tickets == s.tickets[userId := ts] && r.counter == s.counter
  {
    Store(s.tickets[userId := ts], if userId in s.tickets then s.order else s.order + [userId], s.counter)
  }

  /** `db.set('counter', n)`. */
  function PutCounter(s: Store, n: int): (r: Store)
    ensures r.tickets == s.tickets && r.order == s.order && CounterOrZero(r) == n
  {
    s.(counter := Some(n))
  }

  /** `xs` without the element `u`. */
  function Without(xs: seq<UserId>, u: UserId): (r: seq<UserId>)
    ensures forall v :: v in r <==> v in xs && v != u
    ensures Distinct(xs) ==> Distinct(r)
  {
    if xs == [] then []
    else if xs[0] == u then Without(xs[1..], u)
    else
      var rest := Without(xs[1..], u);
      assert Distinct(xs) ==> xs[0] !in xs[1..];
      assert forall j :: 0 < j < |[xs[0]] + rest| ==> ([xs[0]] + rest)[j] == rest[j - 1];
      [xs[0]] + rest
  }

  /** Removing a key that is not there leaves the order as it is. */
  lemma {:induction false} WithoutAbsent(xs: seq<UserId>, u: UserId)
    requires u !in xs
    ensures Without(xs, u) == xs
  {
    if xs != [] {
      WithoutAbsent(xs[1..], u);
      assert xs == [xs[0]] + xs[1..];
    }
  }

  /** Removing a key that occurs once, at `k`, closes the gap and keeps every other key in its order. */
  lemma {:induction false} WithoutAt(xs: seq<UserId>, u: UserId, k: nat)
    requires k < |xs| && xs[k] == u && u !in xs[..k] && u !in xs[k + 1..]
    ensures Without(xs, u) == xs[..k] + xs[k + 1..]
  {
    if k == 0 {
      assert xs[1..] == xs[k + 1..];
      WithoutAbsent(xs[1..], u);
    } else {
      assert xs[0] in xs[..k];
      assert xs[1..][..k - 1] == xs[1..k] && xs[1..][k..] == xs[k + 1..];
      WithoutAt(xs[1..], u, k - 1);
      assert xs[..k] == [xs[0]] + xs[1..k];
    }
  }

  /** `db.resetUserTickets(userId)`: a stored list is always truthy, so it is deleted whenever present. */
  function RemoveUser(s: Store, userId: UserId): (r: Store)
    ensures r.tickets == s.tickets - {userId} && r.counter == s.counter
    ensures forall v :: v in r.order <==> v in s.order && (v != userId || userId !in s.tickets)
  {
    if userId in s.tickets then Store(s.tickets - {userId}, Without(s.order, userId), s.counter) else s
  }

  /** `data.tickets = {}`. */
  function ClearAll(s: Store): (r: Store)
    ensures r.tickets == map[] && r.order == [] && r.counter == s.counter
  {
    s.(tickets := map[], order := [])
  }

  lemma PutUserTicketsWellFormed(s: Store, userId: UserId, ts: seq<Ticket>)
    requires WellFormed(s)
    ensures WellFormed(PutUserTickets(s, userId, ts))
    ensures userId in s.tickets ==> PutUserTickets(s, userId, ts).order == s.order
    ensures userId !in s.tickets ==> PutUserTickets(s, userId, ts).order == s.order + [userId]
  {
  }

  /**
   * Resetting a user removes exactly that user's history, leaves every
   * other user and the counter alone, and a second reset changes nothing.
   */
  lemma RemoveUserEffect(s: Store, userId: UserId)
    requires WellFormed(s)
    ensures var r := RemoveUser(s, userId);
            WellFormed(r) && userId !in r.tickets && r.counter == s.counter &&
            (forall v :: v != userId ==> (v in r.tickets <==> v in s.tickets)) &&
            (forall v :: v in r.tickets ==> r.tickets[v] == s.tickets[v]) &&
            RemoveUser(r, userId) == r
    ensures userId !in s.tickets ==> RemoveUser(s, userId) == s
    ensures userId in s.tickets ==>
              exists k :: 0 <= k < |s.order| && s.order[k] == userId &&
                          RemoveUser(s, userId).order == s.order[..k] + s.order[k + 1..]
  {
    if userId in s.tickets {
      var k :| 0 <= k < |s.order| && s.order[k] == userId;
      WithoutAt(s.order, userId, k);
    }
  }

  /** The admin reset empties `tickets` and keeps `counter`. */
  lemma ClearAllEffect(s: Store)
    ensures WellFormed(ClearAll(s)) && ClearAll(s).tickets == map[] && ClearAll(s).counter == s.counter
  {
  }

  /** Every stored ticket number is at most the counter: the next number is fresh. */
  ghost predicate NumbersBelowCounter(s: Store) {
    forall u, i :: u in s.tickets && 0 <= i < |s.tickets[u]| ==> s.tickets[u][i].number <= CounterOrZero(s)
  }

  /** No user has two open tickets. */
  ghost predicate AtMostOneOpen(s: Store) {
    forall u, i, j :: u in s.tickets && 0 <= i < j < |s.tickets[u]| ==>
      !(s.tickets[u][i].open && s.tickets[u][j].open)
  }

  lemma RemoveUserInvariants(s: Store, userId: UserId)
    ensures NumbersBelowCounter(s) ==> NumbersBelowCounter(RemoveUser(s, userId))
    ensures AtMostOneOpen(s) ==> AtMostOneOpen(RemoveUser(s, userId))
  {
  }

  lemma ClearAllInvariants(s: Store)
    ensures NumbersBelowCounter(ClearAll(s)) && AtMostOneOpen(ClearAll(s))
  {
  }

  /**
   * The typed view of `SimpleDB` holding the store: each method is one of
   * the `db` calls the bot makes, on the whole document.
   */
  class TicketDb {
    var tickets: map<UserId, seq<Ticket>>
    var order: seq<UserId>
    var counter: Option<int>

    function Snapshot(): Store
      reads this
    {
      Store(tickets, order, counter)
    }

    ghost predicate Valid()
      reads this
    {
      WellFormed(Snapshot())
    }

    constructor ()
      ensures Valid() && Snapshot() == InitialStore
    {
      tickets, order, counter := map[], [], Some(0);
    }

    /** `db.get('tickets.' + userId) || []`. */
    method GetUserTickets(userId: UserId) returns (ts: seq<Ticket>)
      ensures ts == UserTickets(Snapshot(), userId)
      ensures userId !in tickets ==> ts == []
    {
      ts := if userId in tickets then tickets[userId] else [];
    }

    /** `db.get('counter') || 0`. */
    method GetCounter() returns (n: int)
      ensures n == CounterOrZero(Snapshot())
      ensures counter.Some? ==> n == counter.value
    {
      n := if counter.Some? then counter.value else 0;
    }

    /** `db.set('tickets.' + userId, ts)`. */
    method SetUserTickets(userId: UserId, ts: seq<Ticket>)
      requires Valid()
      modifies this
      ensures Valid() && Snapshot() == PutUserTickets(old(Snapshot()), userId, ts)
    {
      if userId !in tickets { order := order + [userId]; }
      tickets := tickets[userId := ts];
    }

    /** `db.set('counter', n)`. */
    method SetCounter(n: int)
      requires Valid()
      modifies this
      ensures Valid() && Snapshot() == PutCounter(old(Snapshot()), n)
    {
      counter := Some(n);
    }

    /** `db.resetUserTickets(userId)`. */
    method ResetUserTickets(userId: UserId)
      requires Valid()
      modifies this
      ensures Valid() && Snapshot() == RemoveUser(old(Snapshot()), userId)
    {
      if userId in tickets {
        tickets := tickets - {userId};
        order := Without(order, userId);
      }
    }

    /** The `!reset-tickets` command: `data.tickets = {}`. */
    method ResetAll()
      requires Valid()
      modifies this
      ensures Valid() && Snapshot() == ClearAll(old(Snapshot()))
    {
      tickets, order := map[], [];
    }
  }
}
