/**
 * The ticket lifecycle: `createTicket` (bot.js lines 94-213) and the
 * `confirm_close` button (lines 462-514) over the typed store.  The chat
 * platform appears only through what its calls returned: the lookup of
 * an open ticket's channel, the channel created for a new ticket, the
 * fetch of the ticket's owner and the direct message of the rating
 * prompt.  Timestamps are opaque strings.
 */
module Lifecycle {
  import opened Wrappers
  import opened TicketStore
  import Feedback

  /** `Array.prototype.find` as an index: the first element satisfying `p`. */
  function FindIndex(ts: seq<Ticket>, p: Ticket -> bool): (r: Option<nat>)
    ensures r.Some? ==> r.value < |ts| && p(ts[r.value]) && forall i :: 0 <= i < r.value ==> !p(ts[i])
    ensures r.None? ==> forall i :: 0 <= i < |ts| ==> !p(ts[i])
  {
    if ts == [] then None
    else if p(ts[0]) then Some(0)
    else match FindIndex(ts[1..], p)
      case None => None
      case Some(i) => Some(i + 1)
  }

  predicate IsOpen(t: Ticket) { t.open }

  /** `t.channelId === interaction.channel.id && t.open`. */
  predicate IsOpenOn(channel: ChannelId, t: Ticket) { t.channelId == channel && t.open }

  /**
   * How the open-ticket check of lines 102-120 ended: the fetch of the
   * open ticket's channel resolved to a channel and the "Already Have
   * Open Ticket" reply went out; the fetch resolved to nothing; or the
   * fetch, or the conflict reply after it, threw, which leads to the purge
   * in the `catch`.
   */
  datatype Lookup = Found | NullResult | Throws

  /** The member asking for a ticket. */
  datatype Member = Member(id: UserId, tag: string)

  datatype CreateOutcome =
    | Conflict(existing: ChannelId)         // "Already Have Open Ticket"
    | Created(number: int, channel: ChannelId)
    | Failed                                // channel creation threw: "Failed to create ticket"

  datatype CreateResult = CreateResult(store: Store, outcome: CreateOutcome)

  /**
   * `createTicket`'s effect on the store.  An open ticket whose channel
   * still resolves is a conflict; one whose lookup, or conflict reply,
   * throws has the user's whole history purged first; one whose lookup
   * resolves to nothing is kept, so the user can end up with two open
   * tickets.  The number is
   * read before the channel is created (`created` is None when that
   * throws) and the list is read again before the new record is pushed.
   */
  function Create(s: Store, who: Member, kind: string, description: string,
                  lookup: ChannelId -> Lookup, created: Option<ChannelId>, now: string): CreateResult
  {
    var userTickets := UserTickets(s, who.id);
    var open := FindIndex(userTickets, IsOpen);
    if open.Some? && lookup(userTickets[open.value].channelId) == Found then
      CreateResult(s, Conflict(userTickets[open.value].channelId))
    else
      var s1 := if open.Some? && lookup(userTickets[open.value].channelId) == Throws then RemoveUser(s, who.id) else s;
      Register(s1, who, kind, description, created, now)
  }

  /** The part of `createTicket` after the open-ticket check: number, channel, record, counter. */
  function Register(s: Store, who: Member, kind: string, description: string,
                    created: Option<ChannelId>, now: string): CreateResult
  {
    var number := CounterOrZero(s) + 1;
    match created
    case None => CreateResult(s, Failed)
    case Some(channel) =>
      var record := Ticket(channel, who.id, who.tag, kind, description, true, now, number, who.tag, None, None);
      var s2 := PutUserTickets(s, who.id, UserTickets(s, who.id) + [record]);
      CreateResult(PutCounter(s2, number), Created(number, channel))
  }

  /** An open ticket whose channel still resolves blocks creation and leaves the store as it was. */
  lemma CreateConflict(s: Store, who: Member, kind: string, description: string,
                       lookup: ChannelId -> Lookup, created: Option<ChannelId>, now: string)
    ensures var r := Create(s, who, kind, description, lookup, created, now);
            r.outcome.Conflict? <==>
              exists i :: 0 <= i < |UserTickets(s, who.id)| && UserTickets(s, who.id)[i].open &&
                          (forall j :: 0 <= j < i ==> !UserTickets(s, who.id)[j].open) &&
                          lookup(UserTickets(s, who.id)[i].channelId) == Found
    ensures var r := Create(s, who, kind, description, lookup, created, now);
            r.outcome.Conflict? ==> r.store == s
  {
    var ts := UserTickets(s, who.id);
    var open := FindIndex(ts, IsOpen);
    if open.Some? {
      var i := open.value;
      assert forall k :: 0 <= k < i ==> !ts[k].open by {
        assert forall k :: 0 <= k < i ==> !IsOpen(ts[k]);
      }
    }
  }

  /**
   * A successful creation hands out `(counter || 0) + 1`, appends exactly
   * one open record with that number and channel to the list it re-read
   * (empty after a purge), stores that number as the counter and touches
   * no other user.
   */
  lemma CreateAppends(s: Store, who: Member, kind: string, description: string,
                      lookup: ChannelId -> Lookup, created: Option<ChannelId>, now: string)
    requires WellFormed(s)
    ensures var r := Create(s, who, kind, description, lookup, created, now);
            r.outcome.Created? ==>
              var old_ := UserTickets(s, who.id);
              var open := FindIndex(old_, IsOpen);
              var purged := open.Some? && lookup(old_[open.value].channelId) == Throws;
              var kept := if purged then [] else old_;
              var ts := r.store.tickets[who.id];
              WellFormed(r.store) &&
              r.outcome.number == CounterOrZero(s) + 1 && CounterOrZero(r.store) == r.outcome.number &&
              |ts| == |kept| + 1 && ts[..|kept|] == kept &&
              ts[|kept|] == Ticket(r.outcome.channel, who.id, who.tag, kind, description, true, now,
                                   r.outcome.number, who.tag, None, None) &&
              (forall v :: v != who.id ==> (v in r.store.tickets <==> v in s.tickets)) &&
              (forall v :: v in s.tickets && v != who.id ==> r.store.tickets[v] == s.tickets[v])
  {
    var r := Create(s, who, kind, description, lookup, created, now);
    if r.outcome.Created? {
      var old_ := UserTickets(s, who.id);
      var open := FindIndex(old_, IsOpen);
      var purged := open.Some? && lookup(old_[open.value].channelId) == Throws;
      var s1 := if purged then RemoveUser(s, who.id) else s;
      RemoveUserEffect(s, who.id);
      PutUserTicketsWellFormed(s1, who.id, UserTickets(s1, who.id) + [r.store.tickets[who.id][|r.store.tickets[who.id]| - 1]]);
    }
  }

  /**
   * When the open-ticket check does not end in a conflict, creation
   * succeeds exactly when the channel was created, and the ticket is
   * recorded against that channel.
   */
  lemma CreateSucceeds(s: Store, who: Member, kind: string, description: string,
                       lookup: ChannelId -> Lookup, created: Option<ChannelId>, now: string)
    ensures var ts := UserTickets(s, who.id);
            var open := FindIndex(ts, IsOpen);
            var r := Create(s, who, kind, description, lookup, created, now);
            !(open.Some? && lookup(ts[open.value].channelId) == Found) ==>
              (r.outcome.Created? <==> created.Some?) && (r.outcome.Failed? <==> created.None?)
    ensures var r := Create(s, who, kind, description, lookup, created, now);
            r.outcome.Created? ==> created == Some(r.outcome.channel)
  {
  }

  /** A failed channel creation leaves only the purge, if there was one. */
  lemma CreateFailed(s: Store, who: Member, kind: string, description: string,
                     lookup: ChannelId -> Lookup, now: string)
    ensures var r := Create(s, who, kind, description, lookup, None, now);
            r.outcome.Failed? || r.outcome.Conflict?
    ensures var r := Create(s, who, kind, description, lookup, None, now);
            var ts := UserTickets(s, who.id);
            var open := FindIndex(ts, IsOpen);
            r.outcome.Failed? ==>
              r.store == (if open.Some? && lookup(ts[open.value].channelId) == Throws then RemoveUser(s, who.id) else s)
  {
  }

  /** The race the source leaves open: a lookup that resolves to nothing keeps the old open ticket beside the new one. */
  lemma NullLookupLeavesTwoOpen(s: Store, who: Member, kind: string, description: string,
                                lookup: ChannelId -> Lookup, channel: ChannelId, now: string)
    requires WellFormed(s)
    requires exists i :: 0 <= i < |UserTickets(s, who.id)| && UserTickets(s, who.id)[i].open
    requires forall c :: lookup(c) == NullResult
    ensures var r := Create(s, who, kind, description, lookup, Some(channel), now);
            r.outcome.Created? && !AtMostOneOpen(r.store)
  {
    var ts := UserTickets(s, who.id);
    var open := FindIndex(ts, IsOpen);
    var i :| 0 <= i < |ts| && ts[i].open;
    assert IsOpen(ts[i]);
    var r := Create(s, who, kind, description, lookup, Some(channel), now);
    CreateAppends(s, who, kind, description, lookup, Some(channel), now);
    var nts := r.store.tickets[who.id];
    assert nts[i] == ts[i] by { assert nts[..|ts|] == ts; }
    assert nts[|ts|].open;
  }

  /** Creation keeps every stored number at most the counter, and the new number exceeds all earlier ones. */
  lemma CreateNumbersFresh(s: Store, who: Member, kind: string, description: string,
                           lookup: ChannelId -> Lookup, created: Option<ChannelId>, now: string)
    requires WellFormed(s) && NumbersBelowCounter(s)
    ensures var r := Create(s, who, kind, description, lookup, created, now);
            NumbersBelowCounter(r.store) &&
            (r.outcome.Created? ==>
               forall u, i :: u in s.tickets && 0 <= i < |s.tickets[u]| ==> s.tickets[u][i].number < r.outcome.number)
  {
    var r := Create(s, who, kind, description, lookup, created, now);
    RemoveUserInvariants(s, who.id);
    CreateAppends(s, who, kind, description, lookup, created, now);
    if r.outcome.Created? {
      var old_ := UserTickets(s, who.id);
      var open := FindIndex(old_, IsOpen);
      var purged := open.Some? && lookup(old_[open.value].channelId) == Throws;
      var kept := if purged then [] else old_;
      forall u, i | u in r.store.tickets && 0 <= i < |r.store.tickets[u]|
        ensures r.store.tickets[u][i].number <= CounterOrZero(r.store)
      {
        if u == who.id && i < |kept| {
          assert r.store.tickets[u][i] == kept[i] by { assert r.store.tickets[u][..|kept|] == kept; }
        }
      }
    }
  }

  /**
   * Creation keeps "at most one open ticket per user" whenever an open
   * ticket's lookup does not resolve to nothing.
   */
  lemma CreateKeepsOneOpen(s: Store, who: Member, kind: string, description: string,
                           lookup: ChannelId -> Lookup, created: Option<ChannelId>, now: string)
    requires WellFormed(s) && AtMostOneOpen(s)
    requires forall i :: 0 <= i < |UserTickets(s, who.id)| && UserTickets(s, who.id)[i].open ==>
               lookup(UserTickets(s, who.id)[i].channelId) != NullResult
    ensures AtMostOneOpen(Create(s, who, kind, description, lookup, created, now).store)
  {
    var old_ := UserTickets(s, who.id);
    var open := FindIndex(old_, IsOpen);
    if !(open.Some? && lookup(old_[open.value].channelId) == Found) {
      var purged := open.Some? && lookup(old_[open.value].channelId) == Throws;
      var s1 := if purged then RemoveUser(s, who.id) else s;
      RemoveUserInvariants(s, who.id);
      assert UserTickets(s1, who.id) == [] || open.None?;
      RegisterKeepsOneOpen(s1, who, kind, description, created, now);
    }
  }

  /** Registering a ticket for a user with no open record leaves at most one open. */
  lemma RegisterKeepsOneOpen(s: Store, who: Member, kind: string, description: string,
                             created: Option<ChannelId>, now: string)
    requires AtMostOneOpen(s)
    requires forall i :: 0 <= i < |UserTickets(s, who.id)| ==> !IsOpen(UserTickets(s, who.id)[i])
    ensures AtMostOneOpen(Register(s, who, kind, description, created, now).store)
  {
    if created.Some? {
      var kept := UserTickets(s, who.id);
      var record := Ticket(created.value, who.id, who.tag, kind, description, true, now,
                           CounterOrZero(s) + 1, who.tag, None, None);
      AppendToClosed(kept, record);
      assert Register(s, who, kind, description, created, now).store.tickets == s.tickets[who.id := kept + [record]];
    }
  }

  /** Appending one record to a list with no open record leaves at most one open. */
  lemma AppendToClosed(kept: seq<Ticket>, record: Ticket)
    requires forall i :: 0 <= i < |kept| ==> !IsOpen(kept[i])
    ensures forall i, j :: 0 <= i < j < |kept + [record]| ==> !((kept + [record])[i].open && (kept + [record])[j].open)
  {
  }

  /** A user with no history gets ticket 1 on a fresh store, and the counter becomes 1. */
  lemma FirstTicket(who: Member, kind: string, description: string,
                    lookup: ChannelId -> Lookup, channel: ChannelId, now: string)
    ensures var r := Create(InitialStore, who, kind, description, lookup, Some(channel), now);
            r.outcome == Created(1, channel) && r.store.counter == Some(1) &&
            r.store.tickets == map[who.id := [Ticket(channel, who.id, who.tag, kind, description, true, now, 1, who.tag, None, None)]]
  {
    assert UserTickets(InitialStore, who.id) == [];
    assert FindIndex([], IsOpen) == None;
    assert [] + [Ticket(channel, who.id, who.tag, kind, description, true, now, 1, who.tag, None, None)]
        == [Ticket(channel, who.id, who.tag, kind, description, true, now, 1, who.tag, None, None)];
  }

  /** Where `confirm_close` found the ticket: the `slot`-th user of the scan and the `index`-th record. */
  datatype Hit = Hit(slot: nat, index: nat)

  /** The user has a record that is open on `channel`. */
  predicate HasOpenOn(tickets: map<UserId, seq<Ticket>>, u: UserId, channel: ChannelId) {
    u in tickets && FindIndex(tickets[u], t => IsOpenOn(channel, t)).Some?
  }

  /**
   * The scan of lines 471-479: users in key order, the first record of
   * each that is open on `channel`, stopping at the first user who has one.
   */
  function Locate(order: seq<UserId>, tickets: map<UserId, seq<Ticket>>, channel: ChannelId): (r: Option<Hit>)
    ensures r.None? <==> forall k :: 0 <= k < |order| ==> !HasOpenOn(tickets, order[k], channel)
    ensures r.Some? ==>
              r.value.slot < |order| && HasOpenOn(tickets, order[r.value.slot], channel) &&
              (forall k :: 0 <= k < r.value.slot ==> !HasOpenOn(tickets, order[k], channel)) &&
              Some(r.value.index) == FindIndex(tickets[order[r.value.slot]], t => IsOpenOn(channel, t))
    decreases |order|
  {
    if order == [] then None
    else if HasOpenOn(tickets, order[0], channel) then
      Some(Hit(0, FindIndex(tickets[order[0]], t => IsOpenOn(channel, t)).value))
    else
      match Locate(order[1..], tickets, channel)
      case None => None
      case Some(h) => Some(Hit(h.slot + 1, h.index))
  }

  datatype CloseOutcome =
    | Closed(userId: UserId, number: int, prompted: bool)
    | ChannelDeleted      // no open record for the channel: the channel is deleted at once
    | UserFetchFailed     // `client.users.fetch` threw: nothing changes

  datatype CloseResult = CloseResult(store: Store, sessions: Feedback.Sessions, outcome: CloseOutcome)

  /**
   * `confirm_close` (lines 462-514): find the record, prompt the owner for
   * feedback, then mark the record closed by `staff` at `now` and write
   * back the owner's list.  An empty user id is falsy and counts as not
   * found.
   */
  function Close(s: Store, sessions: Feedback.Sessions, channel: ChannelId, staff: string, now: string,
                 userFetched: bool, dm: Option<Feedback.MessageId>): CloseResult
  {
    match Locate(s.order, s.tickets, channel)
    case None => CloseResult(s, sessions, ChannelDeleted)
    case Some(hit) =>
      var u := s.order[hit.slot];
      if u == "" then CloseResult(s, sessions, ChannelDeleted)
      else if !userFetched then CloseResult(s, sessions, UserFetchFailed)
      else
        var t := s.tickets[u][hit.index];
        var closed := t.(open := false, closedAt := Some(now), closedBy := Some(staff));
        CloseResult(PutUserTickets(s, u, s.tickets[u][hit.index := closed]),
                    Feedback.Prompt(sessions, u, t.description, staff, dm),
                    Closed(u, t.number, dm.Some?))
  }

  /**
   * Closing flips exactly one record, the first one open on the channel,
   * to closed with `closedAt` and `closedBy` set; every other record,
   * user and the counter stay as they were.  Without a match nothing
   * changes.
   */
  lemma CloseEffect(s: Store, sessions: Feedback.Sessions, channel: ChannelId, staff: string, now: string,
                    userFetched: bool, dm: Option<Feedback.MessageId>)
    requires WellFormed(s)
    ensures var r := Close(s, sessions, channel, staff, now, userFetched, dm);
            !r.outcome.Closed? ==> r.store == s && r.sessions == sessions
    ensures var r := Close(s, sessions, channel, staff, now, userFetched, dm);
            (forall u :: u in s.tickets ==> !HasOpenOn(s.tickets, u, channel)) ==> r.outcome == ChannelDeleted
    ensures var r := Close(s, sessions, channel, staff, now, userFetched, dm);
            r.outcome.Closed? ==>
              var u := r.outcome.userId;
              var i := FindIndex(s.tickets[u], t => IsOpenOn(channel, t)).value;
              u in s.tickets && i < |s.tickets[u]| &&
              WellFormed(r.store) && r.store.order == s.order && r.store.counter == s.counter &&
              r.store.tickets.Keys == s.tickets.Keys &&
              |r.store.tickets[u]| == |s.tickets[u]| &&
              s.tickets[u][i].open && s.tickets[u][i].channelId == channel &&
              r.store.tickets[u][i] == s.tickets[u][i].(open := false, closedAt := Some(now), closedBy := Some(staff)) &&
              r.outcome.number == s.tickets[u][i].number &&
              (forall j :: 0 <= j < |s.tickets[u]| && j != i ==> r.store.tickets[u][j] == s.tickets[u][j]) &&
              (forall v :: v in s.tickets && v != u ==> r.store.tickets[v] == s.tickets[v])
  {
    var r := Close(s, sessions, channel, staff, now, userFetched, dm);
    if r.outcome.Closed? {
      var hit := Locate(s.order, s.tickets, channel).value;
      var u := s.order[hit.slot];
      ReplaceRecord(s, u, hit.index, r.store.tickets[u][hit.index]);
    }
  }

  /**
   * Which outcome `confirm_close` reaches: it closes exactly when the scan
   * finds an open record on the channel, its owner's id is truthy and the
   * owner could be fetched; the owner is the user the scan stopped at and
   * the feedback prompt counts as sent exactly when the DM went out.
   */
  lemma CloseSucceeds(s: Store, sessions: Feedback.Sessions, channel: ChannelId, staff: string, now: string,
                      userFetched: bool, dm: Option<Feedback.MessageId>)
    ensures var hit := Locate(s.order, s.tickets, channel);
            var r := Close(s, sessions, channel, staff, now, userFetched, dm);
            (r.outcome.Closed? <==> hit.Some? && s.order[hit.value.slot] != "" && userFetched) &&
            (r.outcome.UserFetchFailed? <==> hit.Some? && s.order[hit.value.slot] != "" && !userFetched) &&
            (r.outcome.ChannelDeleted? <==> hit.None? || s.order[hit.value.slot] == "")
    ensures var hit := Locate(s.order, s.tickets, channel);
            var r := Close(s, sessions, channel, staff, now, userFetched, dm);
            r.outcome.Closed? ==>
              r.outcome.userId == s.order[hit.value.slot] && r.outcome.prompted == dm.Some? &&
              r.sessions == Feedback.Prompt(sessions, r.outcome.userId,
                                            s.tickets[r.outcome.userId][hit.value.index].description, staff, dm)
  {
  }

  /** Writing back one user's list with one record replaced: keys, order, counter and every other record stay. */
  lemma ReplaceRecord(s: Store, u: UserId, i: nat, t: Ticket)
    requires WellFormed(s) && u in s.tickets && i < |s.tickets[u]|
    ensures var r := PutUserTickets(s, u, s.tickets[u][i := t]);
            WellFormed(r) && r.order == s.order && r.counter == s.counter &&
            r.tickets.Keys == s.tickets.Keys && |r.tickets[u]| == |s.tickets[u]| && r.tickets[u][i] == t &&
            (forall j :: 0 <= j < |s.tickets[u]| && j != i ==> r.tickets[u][j] == s.tickets[u][j]) &&
            (forall v :: v in s.tickets && v != u ==> r.tickets[v] == s.tickets[v])
  {
    PutUserTicketsWellFormed(s, u, s.tickets[u][i := t]);
  }

  /** Closing keeps both store invariants. */
  lemma CloseKeepsInvariants(s: Store, sessions: Feedback.Sessions, channel: ChannelId, staff: string, now: string,
                             userFetched: bool, dm: Option<Feedback.MessageId>)
    requires WellFormed(s)
    ensures var r := Close(s, sessions, channel, staff, now, userFetched, dm);
            (NumbersBelowCounter(s) ==> NumbersBelowCounter(r.store)) &&
            (AtMostOneOpen(s) ==> AtMostOneOpen(r.store))
  {
    var r := Close(s, sessions, channel, staff, now, userFetched, dm);
    if r.outcome.Closed? {
      var hit := Locate(s.order, s.tickets, channel).value;
      var u := s.order[hit.slot];
      var t := s.tickets[u][hit.index];
      CloseRecordKeepsInvariants(s, u, hit.index, t.(open := false, closedAt := Some(now), closedBy := Some(staff)));
    }
  }

  /** Replacing a record by a closed one with the same number keeps both store invariants. */
  lemma CloseRecordKeepsInvariants(s: Store, u: UserId, i: nat, t: Ticket)
    requires WellFormed(s) && u in s.tickets && i < |s.tickets[u]|
    requires !t.open && t.number == s.tickets[u][i].number
    ensures var r := PutUserTickets(s, u, s.tickets[u][i := t]);
            (NumbersBelowCounter(s) ==> NumbersBelowCounter(r)) && (AtMostOneOpen(s) ==> AtMostOneOpen(r))
  {
    var r := PutUserTickets(s, u, s.tickets[u][i := t]);
    ReplaceRecord(s, u, i, t);
    forall v, j | v in r.tickets && 0 <= j < |r.tickets[v]|
      ensures r.tickets[v][j].number == s.tickets[v][j].number
      ensures r.tickets[v][j].open ==> s.tickets[v][j].open
    {
    }
  }

  /**
   * `createTicket`, step by step as the source makes its `db` calls.
   * `lookup` answers `guild.channels.fetch`, `created` is the channel
   * `guild.channels.create` made (None when it threw).
   */
  method CreateTicket(db: TicketDb, who: Member, kind: string, description: string,
                      lookup: ChannelId -> Lookup, created: Option<ChannelId>, now: string)
    returns (outcome: CreateOutcome)
    requires db.Valid()
    modifies db
    ensures db.Valid()
    ensures CreateResult(db.Snapshot(), outcome) == Create(old(db.Snapshot()), who, kind, description, lookup, created, now)
  {
    var conflict := CheckOpenTicket(db, who.id, lookup);
    if conflict.Some? {
      return Conflict(conflict.value);
    }
    outcome := RegisterTicket(db, who, kind, description, created, now);
  }

  /**
   * Lines 100-121 of `createTicket`: the user's first open record blocks
   * creation when its channel resolves and is purged with the whole
   * history when the lookup, or the conflict reply, throws.
   */
  method CheckOpenTicket(db: TicketDb, userId: UserId, lookup: ChannelId -> Lookup)
    returns (conflict: Option<ChannelId>)
    requires db.Valid()
    modifies db
    ensures db.Valid()
    ensures var ts := UserTickets(old(db.Snapshot()), userId);
            var open := FindIndex(ts, IsOpen);
            && (conflict.Some? <==> open.Some? && lookup(ts[open.value].channelId) == Found)
            && (conflict.Some? ==> conflict.value == ts[open.value].channelId && db.Snapshot() == old(db.Snapshot()))
            && (conflict.None? ==>
                  db.Snapshot() == if open.Some? && lookup(ts[open.value].channelId) == Throws
                                   then RemoveUser(old(db.Snapshot()), userId) else old(db.Snapshot()))
  {
    var userTickets := db.GetUserTickets(userId);
    var open := FindIndex(userTickets, IsOpen);
    conflict := None;
    if open.Some? {
      var status := lookup(userTickets[open.value].channelId);
      if status == Found {
        conflict := Some(userTickets[open.value].channelId);
      } else if status == Throws {
        db.ResetUserTickets(userId);
      }
    }
  }

  /** Lines 136-163 of `createTicket`: read the counter, create the channel, push the record, store the number. */
  method RegisterTicket(db: TicketDb, who: Member, kind: string, description: string,
                        created: Option<ChannelId>, now: string)
    returns (outcome: CreateOutcome)
    requires db.Valid()
    modifies db
    ensures db.Valid()
    ensures CreateResult(db.Snapshot(), outcome) == Register(old(db.Snapshot()), who, kind, description, created, now)
  {
    var counter := db.GetCounter();
    var number := counter + 1;
    if created.None? {
      return Failed;
    }
    var record := Ticket(created.value, who.id, who.tag, kind, description, true, now, number, who.tag, None, None);
    var currentTickets := db.GetUserTickets(who.id);
    currentTickets := currentTickets + [record];
    db.SetUserTickets(who.id, currentTickets);
    db.SetCounter(number);
    outcome := Created(number, created.value);
  }

  /** The scan of lines 471-479 over the live store. */
  method FindTicket(db: TicketDb, channel: ChannelId) returns (hit: Option<Hit>)
    ensures hit == Locate(db.order, db.tickets, channel)
  {
    var k := 0;
    while k < |db.order|
      invariant 0 <= k <= |db.order|
      invariant forall j :: 0 <= j < k ==> !HasOpenOn(db.tickets, db.order[j], channel)
    {
      var uid := db.order[k];
      if uid in db.tickets {
        var i := FindIndex(db.tickets[uid], t => IsOpenOn(channel, t));
        if i.Some? {
          hit := Some(Hit(k, i.value));
          LocateFirst(db.order, db.tickets, channel, k);
          return;
        }
      }
      k := k + 1;
    }
    hit := None;
  }

  /** The scan stops at the first user who has a match. */
  lemma LocateFirst(order: seq<UserId>, tickets: map<UserId, seq<Ticket>>, channel: ChannelId, k: nat)
    requires k < |order| && HasOpenOn(tickets, order[k], channel)
    requires forall j :: 0 <= j < k ==> !HasOpenOn(tickets, order[j], channel)
    ensures Locate(order, tickets, channel) == Some(Hit(k, FindIndex(tickets[order[k]], t => IsOpenOn(channel, t)).value))
  {
    var r := Locate(order, tickets, channel);
    assert r.Some?;
    assert r.value.slot == k;
  }

  /**
   * The `confirm_close` handler: scan, fetch the owner (`userFetched`),
   * send the rating prompt (`dm` is the direct message, None when it
   * could not be sent), close the record and write the owner's list back.
   */
  method ConfirmClose(db: TicketDb, vouch: Feedback.VouchSessions, channel: ChannelId, staff: string, now: string,
                      userFetched: bool, dm: Option<Feedback.MessageId>)
    returns (outcome: CloseOutcome)
    requires db.Valid()
    modifies db, vouch
    ensures db.Valid()
    ensures CloseResult(db.Snapshot(), vouch.sessions, outcome)
            == Close(old(db.Snapshot()), old(vouch.sessions), channel, staff, now, userFetched, dm)
  {
    var found := FindTicket(db, channel);
    if found.None? || db.order[found.value.slot] == "" {
      return ChannelDeleted;
    }
    var userId := db.order[found.value.slot];
    if !userFetched {
      return UserFetchFailed;
    }
    var userTickets := db.tickets[userId];
    var ticket := userTickets[found.value.index];
    var sent := vouch.RequestVouch(userId, ticket.description, staff, dm);
    ticket := ticket.(open := false, closedAt := Some(now), closedBy := Some(staff));
    db.SetUserTickets(userId, userTickets[found.value.index := ticket]);
    outcome := Closed(userId, userTickets[found.value.index].number, sent);
  }
}
