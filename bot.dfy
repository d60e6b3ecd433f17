/**
 * The event handlers of the bot: `interactionCreate` (bot.js lines
 * 333-542) routes menu choices, buttons and form submissions to the
 * ticket and feedback logic, one method per kind of interaction; `messageCreate` (lines 545-604) handles the
 * two administrator commands.  Everything the platform answers is passed
 * in as a `Platform` value.
 */
module Bot {
  import opened Wrappers
  import opened Text
  import opened TicketStore
  import Feedback
  import Panel
  import Lifecycle

  /** What the platform's calls returned while one interaction was handled. */
  datatype Platform = Platform(
    actor: Lifecycle.Member,                   // `interaction.member` / `interaction.user`
    channel: ChannelId,                        // `interaction.channel.id`
    lookup: ChannelId -> Lifecycle.Lookup,     // `guild.channels.fetch`
    created: Option<ChannelId>,                // `guild.channels.create`
    now: string,                               // `new Date().toISOString()`
    userFetched: bool,                         // `client.users.fetch` of the ticket owner
    dm: Option<Feedback.MessageId>,            // the rating prompt's direct message
    feedbackChannelFound: bool)                // `client.channels.fetch` of the feedback channel

  datatype Reply =
    | PanelReply(action: Panel.PanelAction)
    | TicketReply(created: Lifecycle.CreateOutcome)
    | RatingForm
    | FeedbackReply(submitted: Feedback.SubmitOutcome, post: Option<Feedback.Post>)
    | ConfirmPrompt
    | CloseReply(closed: Lifecycle.CloseOutcome)
    | ClosureCancelled
    | NoReply

  /**
   * A string select menu event (`value` is `interaction.values[0]`): the
   * service menu, the buy/sell menu and the rating menu.
   */
  method OnSelectMenu(db: TicketDb, vouch: Feedback.VouchSessions, customId: string, value: string, p: Platform)
    returns (reply: Reply)
    requires db.Valid()
    modifies db, vouch
    ensures db.Valid()
    ensures customId == "ticket_type" ==>
              vouch.sessions == old(vouch.sessions) &&
              match Panel.SelectService(value)
              case OpenTicket(req) =>
                reply.TicketReply? &&
                Lifecycle.CreateResult(db.Snapshot(), reply.created)
                  == Lifecycle.Create(old(db.Snapshot()), p.actor, req.kind, req.description, p.lookup, p.created, p.now)
              case _ => reply == PanelReply(Panel.SelectService(value)) && db.Snapshot() == old(db.Snapshot())
    ensures StartsWith(customId, "buy_sell_") ==>
              var req := Panel.BuySell(value);
              vouch.sessions == old(vouch.sessions) && reply.TicketReply? &&
              Lifecycle.CreateResult(db.Snapshot(), reply.created)
                == Lifecycle.Create(old(db.Snapshot()), p.actor, req.kind, req.description, p.lookup, p.created, p.now)
    ensures customId == "vouch_rating" ==>
              reply == RatingForm && db.Snapshot() == old(db.Snapshot()) &&
              vouch.sessions == Feedback.Rate(old(vouch.sessions), p.actor.id, value)
    ensures customId != "ticket_type" && customId != "vouch_rating" && !StartsWith(customId, "buy_sell_") ==>
              reply == NoReply && db.Snapshot() == old(db.Snapshot()) && vouch.sessions == old(vouch.sessions)
  {
    reply := NoReply;
    assert !StartsWith("ticket_type", "buy_sell_") by { assert "ticket_type"[0] != "buy_sell_"[0]; }
    assert !StartsWith("vouch_rating", "buy_sell_") by { assert "vouch_rating"[0] != "buy_sell_"[0]; }
    if customId == "ticket_type" {
      var action := Panel.SelectService(value);
      if action.OpenTicket? {
        var outcome := Lifecycle.CreateTicket(db, p.actor, action.request.kind, action.request.description, p.lookup, p.created, p.now);
        reply := TicketReply(outcome);
      } else {
        reply := PanelReply(action);
      }
    } else if StartsWith(customId, "buy_sell_") {
      var req := Panel.BuySell(value);
      var outcome := Lifecycle.CreateTicket(db, p.actor, req.kind, req.description, p.lookup, p.created, p.now);
      reply := TicketReply(outcome);
    } else if customId == "vouch_rating" {
      vouch.SelectRating(p.actor.id, value);
      reply := RatingForm;
    }
  }

  /** A form submission: only the feedback comment form is handled. */
  method OnModalSubmit(vouch: Feedback.VouchSessions, customId: string, comment: string, p: Platform)
    returns (reply: Reply)
    modifies vouch
    ensures customId == "vouch_comment_modal" ==>
              reply.FeedbackReply? &&
              (vouch.sessions, reply.submitted) == Feedback.Submit(old(vouch.sessions), p.actor.id, comment) &&
              reply.post == (if reply.submitted.Published? then Feedback.Relay(reply.submitted.review, p.feedbackChannelFound) else None)
    ensures customId != "vouch_comment_modal" ==> reply == NoReply && vouch.sessions == old(vouch.sessions)
  {
    reply := NoReply;
    if customId == "vouch_comment_modal" {
      var outcome, post := vouch.SubmitComment(p.actor.id, comment, p.feedbackChannelFound);
      reply := FeedbackReply(outcome, post);
    }
  }

  /**
   * A button press: `close_ticket` only asks for confirmation,
   * `confirm_close` closes the channel's ticket, `cancel_close` changes
   * nothing.
   */
  method OnButton(db: TicketDb, vouch: Feedback.VouchSessions, customId: string, p: Platform)
    returns (reply: Reply)
    requires db.Valid()
    modifies db, vouch
    ensures db.Valid()
    ensures customId == "confirm_close" ==>
              reply.CloseReply? &&
              Lifecycle.CloseResult(db.Snapshot(), vouch.sessions, reply.closed)
                == Lifecycle.Close(old(db.Snapshot()), old(vouch.sessions), p.channel, p.actor.tag, p.now, p.userFetched, p.dm)
    ensures customId != "confirm_close" ==>
              db.Snapshot() == old(db.Snapshot()) && vouch.sessions == old(vouch.sessions) &&
              reply == (if customId == "close_ticket" then ConfirmPrompt
                        else if customId == "cancel_close" then ClosureCancelled
                        else NoReply)
  {
    reply := NoReply;
    if customId == "close_ticket" {
      reply := ConfirmPrompt;
    } else if customId == "confirm_close" {
      var outcome := Lifecycle.ConfirmClose(db, vouch, p.channel, p.actor.tag, p.now, p.userFetched, p.dm);
      reply := CloseReply(outcome);
    } else if customId == "cancel_close" {
      reply := ClosureCancelled;
    }
  }

  datatype CommandReply = PanelPosted | TicketsReset | Ignored

  /**
   * One `messageCreate` event.  `isAdministrator` and `hasAdminRole` are
   * the permission and role checks the platform answers.
   */
  method HandleMessage(db: TicketDb, content: string, fromBot: bool, isAdministrator: bool, hasAdminRole: bool)
    returns (reply: CommandReply)
    requires db.Valid()
    modifies db
    ensures db.Valid()
    ensures reply == TicketsReset <==> !fromBot && content == "!reset-tickets" && hasAdminRole
    ensures reply == PanelPosted <==> !fromBot && content == "!setup-tickets" && isAdministrator
    ensures db.Snapshot() == if reply == TicketsReset then ClearAll(old(db.Snapshot())) else old(db.Snapshot())
  {
    reply := Ignored;
    if fromBot {
      return;
    }
    if content == "!setup-tickets" && isAdministrator {
      reply := PanelPosted;
    }
    if content == "!reset-tickets" && hasAdminRole {
      db.ResetAll();
      reply := TicketsReset;
    }
  }
}
