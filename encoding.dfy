/**
 * How the typed store sits in `tickets.json`, and proof that every typed
 * store operation is exactly what the corresponding `SimpleDB` call does
 * to the encoded document.
 */
module StoreEncoding {
  import opened Wrappers
  import opened Text
  import opened Document
  import opened TicketStore

  function OptionalText(key: string, v: Option<string>): map<string, Node> {
    match v
    case None => map[]
    case Some(x) => map[key := Str(x)]
  }

  /** A ticket record as a JSON object; `closedAt`/`closedBy` are absent until closure. */
  function EncodeTicket(t: Ticket): Node {
    Obj(map[
      "channelId" := Str(t.channelId), "userId" := Str(t.userId), "userTag" := Str(t.userTag),
      "type" := Str(t.kind), "description" := Str(t.description), "open" := Bool(t.open),
      "createdAt" := Str(t.createdAt), "number" := Num(t.number), "openedBy" := Str(t.openedBy)]
      + OptionalText("closedAt", t.closedAt) + OptionalText("closedBy", t.closedBy))
  }

  function EncodeTickets(ts: seq<Ticket>): Node {
    Arr(seq(|ts|, i requires 0 <= i < |ts| => EncodeTicket(ts[i])))
  }

  function EncodeUsers(tickets: map<UserId, seq<Ticket>>): map<string, Node> {
    map u | u in tickets :: EncodeTickets(tickets[u])
  }

  /** The whole document: `{ tickets: { <userId>: [...] }, counter: n }`. */
  function Encode(s: Store): Node {
    var users := Obj(EncodeUsers(s.tickets));
    match s.counter
    case None => Obj(map["tickets" := users])
    case Some(n) => Obj(map["tickets" := users, "counter" := Num(n)])
  }

  function TextField(m: map<string, Node>, key: string): Option<string> {
    if key in m && m[key].Str? then Some(m[key].s) else None
  }

  /** Reads a ticket record back from its JSON object. */
  function DecodeTicket(n: Node): Option<Ticket> {
    if !n.Obj? then None
    else
      var m := n.fields;
      if !(&& TextField(m, "channelId").Some? && TextField(m, "userId").Some? && TextField(m, "userTag").Some?
           && TextField(m, "type").Some? && TextField(m, "description").Some? && TextField(m, "createdAt").Some?
           && TextField(m, "openedBy").Some? && "open" in m && m["open"].Bool? && "number" in m && m["number"].Num?)
      then None
      else Some(Ticket(TextField(m, "channelId").value, TextField(m, "userId").value, TextField(m, "userTag").value,
                       TextField(m, "type").value, TextField(m, "description").value, m["open"].b,
                       TextField(m, "createdAt").value, m["number"].n, TextField(m, "openedBy").value,
                       TextField(m, "closedAt"), TextField(m, "closedBy")))
  }

  lemma EncodedIdentity(t: Ticket)
    ensures var m := EncodeTicket(t).fields;
      TextField(m, "channelId") == Some(t.channelId) && TextField(m, "userId") == Some(t.userId)
      && TextField(m, "userTag") == Some(t.userTag) && TextField(m, "type") == Some(t.kind)
  {
  }

  lemma EncodedDetails(t: Ticket)
    ensures var m := EncodeTicket(t).fields;
      TextField(m, "description") == Some(t.description) && TextField(m, "createdAt") == Some(t.createdAt)
      && TextField(m, "openedBy") == Some(t.openedBy)
  {
  }

  lemma EncodedState(t: Ticket)
    ensures var m := EncodeTicket(t).fields;
      "open" in m && m["open"] == Bool(t.open) && "number" in m && m["number"] == Num(t.number)
      && TextField(m, "closedAt") == t.closedAt && TextField(m, "closedBy") == t.closedBy
  {
  }

  /** Every ticket record reads back as itself. */
  lemma DecodeEncodeTicket(t: Ticket)
    ensures DecodeTicket(EncodeTicket(t)) == Some(t)
  {
    EncodedIdentity(t);
    EncodedDetails(t);
    EncodedState(t);
  }

  /** Distinct stores (up to key order) are distinct documents: the encoding loses nothing but `order`. */
  lemma EncodeInjective(s: Store, t: Store)
    requires Encode(s) == Encode(t)
    ensures s.tickets == t.tickets && s.counter == t.counter
  {
    var es, et := EncodeUsers(s.tickets), EncodeUsers(t.tickets);
    assert Encode(s).fields["tickets"] == Obj(es) && Encode(t).fields["tickets"] == Obj(et);
    assert es.Keys == s.tickets.Keys && et.Keys == t.tickets.Keys;
    forall u | u in s.tickets ensures s.tickets[u] == t.tickets[u] {
      EncodeTicketsInjective(s.tickets[u], t.tickets[u]);
    }
    assert ("counter" in Encode(s).fields <==> s.counter.Some?) && ("counter" in Encode(t).fields <==> t.counter.Some?);
    if s.counter.Some? { assert Encode(s).fields["counter"] == Num(s.counter.value); }
    if t.counter.Some? { assert Encode(t).fields["counter"] == Num(t.counter.value); }
  }

  lemma EncodeTicketsInjective(a: seq<Ticket>, b: seq<Ticket>)
    requires EncodeTickets(a) == EncodeTickets(b)
    ensures a == b
  {
    assert |a| == |EncodeTickets(a).items| && |b| == |EncodeTickets(b).items|;
    forall i | 0 <= i < |a| ensures a[i] == b[i] {
      assert EncodeTickets(a).items[i] == EncodeTicket(a[i]);
      assert EncodeTickets(b).items[i] == EncodeTicket(b[i]);
      DecodeEncodeTicket(a[i]);
      DecodeEncodeTicket(b[i]);
    }
  }

  /** The store of a fresh file is the initial document. */
  lemma EncodeInitial()
    ensures Encode(InitialStore) == InitialDocument
  {
    assert EncodeUsers(map[]) == map[];
  }

  lemma UserPath(userId: UserId)
    requires '.' !in userId
    ensures Split("tickets." + userId, '.') == ["tickets", userId]
  {
    assert Join(["tickets", userId], '.') == "tickets." + userId by {
      assert ["tickets", userId][1..] == [userId];
    }
    assert '.' !in "tickets";
    SplitJoin(["tickets", userId], '.');
  }

  lemma CounterPath()
    ensures Split("counter", '.') == ["counter"]
  {
    SplitPiece("counter", '.');
  }

  /** `get('tickets.' + userId) || []` on the document reads the typed `UserTickets`. */
  lemma GetUserTicketsRefines(s: Store, userId: UserId)
    requires '.' !in userId
    ensures var v := Walk(Some(Encode(s)), Split("tickets." + userId, '.'));
            (if Truthy(v) then v.value else EncodeTickets([])) == EncodeTickets(UserTickets(s, userId))
  {
    UserPath(userId);
    WalkTwo(Some(Encode(s)), "tickets", userId);
  }

  /** `get('counter') || 0` on the document reads the typed `CounterOrZero`. */
  lemma GetCounterRefines(s: Store)
    ensures var v := Walk(Some(Encode(s)), Split("counter", '.'));
            (if Truthy(v) then v.value else Num(0)) == Num(CounterOrZero(s))
  {
    CounterPath();
    WalkTwo(Some(Encode(s)), "counter", "");
  }

  /** `set('tickets.' + userId, ts)` on the document is the typed `PutUserTickets`. */
  lemma SetUserTicketsRefines(s: Store, userId: UserId, ts: seq<Ticket>)
    requires '.' !in userId
    ensures Assign(Encode(s), Split("tickets." + userId, '.'), EncodeTickets(ts))
            == Written(Encode(PutUserTickets(s, userId, ts)))
  {
    UserPath(userId);
    var path := ["tickets", userId];
    assert path[1..] == [userId];
    var m := Encode(s).fields;
    var users := EncodeUsers(s.tickets);
    assert m["tickets"] == Obj(users);
    assert Assign(Obj(users), path[1..], EncodeTickets(ts)) == Written(Obj(users[userId := EncodeTickets(ts)]));
    assert users[userId := EncodeTickets(ts)] == EncodeUsers(s.tickets[userId := ts]);
    assert m["tickets" := Obj(EncodeUsers(s.tickets[userId := ts]))] == Encode(PutUserTickets(s, userId, ts)).fields;
  }

  /** `set('counter', n)` on the document is the typed `PutCounter`. */
  lemma SetCounterRefines(s: Store, n: int)
    ensures Assign(Encode(s), Split("counter", '.'), Num(n)) == Written(Encode(PutCounter(s, n)))
  {
    CounterPath();
    var users := Obj(EncodeUsers(s.tickets));
    assert Assign(Encode(s), ["counter"], Num(n)) == Written(Obj(Encode(s).fields["counter" := Num(n)]));
    match s.counter {
      case None =>
        assert map["tickets" := users]["counter" := Num(n)] == map["tickets" := users, "counter" := Num(n)];
      case Some(c) =>
        assert map["tickets" := users, "counter" := Num(c)]["counter" := Num(n)]
            == map["tickets" := users, "counter" := Num(n)];
    }
  }

  /** `resetUserTickets(userId)` on the document is the typed `RemoveUser`. */
  lemma ResetUserRefines(s: Store, userId: UserId)
    ensures ResetUser(Encode(s), userId) == Written(Encode(RemoveUser(s, userId)))
  {
    var users := EncodeUsers(s.tickets);
    assert Child(Some(Encode(s)), "tickets") == Some(Obj(users));
    if userId in s.tickets {
      assert users - {userId} == EncodeUsers(s.tickets - {userId});
      assert Encode(s).fields["tickets" := Obj(users - {userId})] == Encode(RemoveUser(s, userId)).fields;
    }
  }

  /** The admin reset on the document is the typed `ClearAll`. */
  lemma ClearTicketsRefines(s: Store)
    ensures ClearTickets(Encode(s)) == Written(Encode(ClearAll(s)))
  {
    assert EncodeUsers(map[]) == map[];
    assert Encode(s).fields["tickets" := Obj(map[])] == Encode(ClearAll(s)).fields;
  }
}
