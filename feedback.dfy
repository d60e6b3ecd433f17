/**
 * The feedback round trip after a ticket closes: `sendVouchRequest`
 * opens a session when the direct message goes out, a rating selection
 * merges `vouch_N` into the session, and the comment form publishes the
 * review through `sendVouchToChannel` and ends the session.
 */
module Feedback {
  import opened Wrappers
  import opened Text
  import opened TicketStore

  type MessageId = string

  /**
   * One entry of `vouchSessions`.  A rating that `parseInt` turns into
   * NaN is kept as None: like a missing rating it is falsy, and the
   * rating is read nowhere else.
   */
  datatype Session = Session(
    ticketDescription: Option<string>,
    staffMember: Option<string>,
    messageId: Option<MessageId>,
    rating: Option<int>)

  type Sessions = map<UserId, Session>

  /**
   * `sendVouchRequest` (lines 216-287): the session is stored, replacing
   * any earlier one, only when the direct message was sent (`dm` is its
   * id); a failed send is caught and reported as false.
   */
  function Prompt(sessions: Sessions, userId: UserId, description: string, staff: string, dm: Option<MessageId>): (r: Sessions)
    ensures dm.None? ==> r == sessions
    ensures dm.Some? ==>
              r.Keys == sessions.Keys + {userId} && r[userId].rating.None? &&
              r[userId].messageId == dm && r[userId].ticketDescription == Some(description) &&
              r[userId].staffMember == Some(staff) &&
              (forall v :: v in sessions && v != userId ==> r[v] == sessions[v])
  {
    match dm
    case None => sessions
    case Some(id) => sessions[userId := Session(Some(description), Some(staff), Some(id), None)]
  }

  /** `parseInt(value.split('_')[1])`; `parseInt(undefined)` is NaN. */
  function RatingOf(value: string): Option<int> {
    var parts := Split(value, '_');
    if |parts| < 2 then None else ParseInt(parts[1])
  }

  /** The value the rating menu offers for `n` stars. */
  function RatingOption(n: nat): string {
    "vouch_" + Decimal(n)
  }

  /** Each offered `vouch_N` parses back to N. */
  lemma RatingOfOption(n: nat)
    ensures RatingOf(RatingOption(n)) == Some(n)
  {
    var d := Decimal(n);
    assert forall i :: 0 <= i < |d| ==> '_' != d[i];
    assert '_' !in "vouch" && '_' !in d;
    SplitJoin(["vouch", d], '_');
    assert Join(["vouch", d], '_') == RatingOption(n) by {
      assert ["vouch", d][1..] == [d];
    }
    ParseDecimal(n);
  }

  /**
   * The rating selection (lines 389-396):
   * `{ ...vouchSessions.get(id), rating }`; spreading a missing session
   * adds nothing.
   */
  function Rate(sessions: Sessions, userId: UserId, value: string): Sessions {
    var base := if userId in sessions then sessions[userId] else Session(None, None, None, None);
    sessions[userId := base.(rating := RatingOf(value))]
  }

  /** Rating keeps what the prompt stored and touches no other user. */
  lemma RateEffect(sessions: Sessions, userId: UserId, value: string)
    ensures var r := Rate(sessions, userId, value);
            userId in r && r[userId].rating == RatingOf(value) &&
            (userId in sessions ==>
               r[userId].ticketDescription == sessions[userId].ticketDescription &&
               r[userId].staffMember == sessions[userId].staffMember &&
               r[userId].messageId == sessions[userId].messageId) &&
            (userId !in sessions ==> r[userId] == Session(None, None, None, RatingOf(value))) &&
            r.Keys == sessions.Keys + {userId} &&
            (forall v :: v in sessions && v != userId ==> r[v] == sessions[v])
  {
  }

  /** `vouchData && vouchData.rating`: a session whose rating is a non-zero number. */
  predicate CanPublish(sessions: Sessions, userId: UserId) {
    userId in sessions && sessions[userId].rating.Some? && sessions[userId].rating.value != 0
  }

  /** A review handed to the feedback channel. */
  datatype Review = Review(userId: UserId, rating: int, ticketDescription: Option<string>, comment: string)

  datatype SubmitOutcome = Published(review: Review) | Expired

  /**
   * The comment form (lines 415-436): with a rated session the review is
   * relayed and the session deleted; otherwise "Session expired" and the
   * sessions stay as they are.
   */
  function Submit(sessions: Sessions, userId: UserId, comment: string): (Sessions, SubmitOutcome) {
    if CanPublish(sessions, userId) then
      var s := sessions[userId];
      (sessions - {userId}, Published(Review(userId, s.rating.value, s.ticketDescription, comment)))
    else (sessions, Expired)
  }

  /** Publishing happens exactly for a rated session, consumes it, and carries its rating and description. */
  lemma SubmitEffect(sessions: Sessions, userId: UserId, comment: string)
    ensures var (r, out) := Submit(sessions, userId, comment);
            (out.Published? <==> CanPublish(sessions, userId)) &&
            (out.Published? ==>
               r == sessions - {userId} &&
               out.review.rating == sessions[userId].rating.value && out.review.rating != 0 &&
               out.review.ticketDescription == sessions[userId].ticketDescription &&
               out.review.comment == comment && out.review.userId == userId) &&
            (out.Expired? ==> r == sessions)
  {
  }

  /** A second submission after a published one reports expiry. */
  lemma SubmitTwiceExpires(sessions: Sessions, userId: UserId, c1: string, c2: string)
    requires Submit(sessions, userId, c1).1.Published?
    ensures Submit(Submit(sessions, userId, c1).0, userId, c2) == (Submit(sessions, userId, c1).0, Expired)
  {
  }

  /** A prompted but unrated session never publishes. */
  lemma PromptAloneExpires(sessions: Sessions, userId: UserId, description: string, staff: string, dm: MessageId, comment: string)
    ensures var p := Prompt(sessions, userId, description, staff, Some(dm));
            Submit(p, userId, comment) == (p, Expired)
  {
  }

  /**
   * Prompt, rating 4, comment "Great service": the relay receives
   * `(user, 4, description, "Great service")`, the session is gone, and
   * submitting again reports expiry.
   */
  lemma RateFourThenComment(sessions: Sessions, userId: UserId, description: string, staff: string, dm: MessageId)
    ensures var rated := Rate(Prompt(sessions, userId, description, staff, Some(dm)), userId, RatingOption(4));
            var (after, out) := Submit(rated, userId, "Great service");
            out == Published(Review(userId, 4, Some(description), "Great service")) &&
            userId !in after &&
            Submit(after, userId, "Great service").1 == Expired
  {
    RatingOfOption(4);
  }

  const FilledStar: char := '\U{2B50}'   // ⭐
  const EmptyStar: char := '\U{2606}'    // ☆

  /**
   * `'⭐'.repeat(rating) + '☆'.repeat(5 - rating)` (line 298); a negative
   * count makes `repeat` throw a RangeError, which the relay catches.
   */
  function Stars(rating: int): Option<string> {
    if 0 <= rating <= 5 then Some(Repeat(FilledStar, rating) + Repeat(EmptyStar, 5 - rating)) else None
  }

  /** For ratings 0 to 5: five symbols, the first `rating` of them filled. */
  lemma StarsShape(rating: int)
    ensures Stars(rating).Some? <==> 0 <= rating <= 5
    ensures 0 <= rating <= 5 ==>
              var s := Stars(rating).value;
              |s| == 5 &&
              (forall i :: 0 <= i < rating ==> s[i] == FilledStar) &&
              (forall i :: rating <= i < 5 ==> s[i] == EmptyStar)
  {
    if 0 <= rating <= 5 {
      var s := Stars(rating).value;
      forall i | rating <= i < 5 ensures s[i] == EmptyStar {
        assert s[i] == Repeat(EmptyStar, 5 - rating)[i - rating];
      }
    }
  }

  const Green: int := 0x27ae60
  const LightGreen: int := 0x2ecc71
  const Orange: int := 0xf39c12
  const DarkOrange: int := 0xe67e22
  const Red: int := 0xe74c3c

  /** The embed colour of a review (lines 299-302). */
  function Colour(rating: int): int {
    if rating == 5 then Green
    else if rating == 4 then LightGreen
    else if rating == 3 then Orange
    else if rating == 2 then DarkOrange
    else Red
  }

  /** Five distinct bands for 1 to 5; every rating outside 2..5 falls in the red band. */
  lemma ColourBands(r1: int, r2: int)
    ensures 1 <= r1 <= 5 && 1 <= r2 <= 5 && r1 != r2 ==> Colour(r1) != Colour(r2)
    ensures !(2 <= r1 <= 5) <==> Colour(r1) == Red
  {
  }

  /** `comment && comment.trim() !== ''` (line 317): the comment field is shown. */
  predicate ShowsComment(comment: string) {
    comment != "" && Trim(comment) != ""
  }

  /** The comment field appears exactly when the comment has a non-whitespace character. */
  lemma ShowsCommentExactly(comment: string)
    ensures ShowsComment(comment) <==> exists i :: 0 <= i < |comment| && !IsJsWhitespace(comment[i])
  {
    TrimEmpty(comment);
  }

  /** The review as the feedback channel shows it. */
  datatype Post = Post(
    userId: UserId,
    rating: int,
    stars: string,
    service: Option<string>,
    colour: int,
    comment: Option<string>)

  /**
   * `sendVouchToChannel` (lines 290-330): None when the feedback channel
   * cannot be fetched (`channelFound` false) or `repeat` throws.
   */
  function Relay(review: Review, channelFound: bool): (p: Option<Post>)
    ensures p.Some? <==> channelFound && 0 <= review.rating <= 5
  {
    if !channelFound then None
    else match Stars(review.rating)
      case None => None
      case Some(stars) =>
        Some(Post(review.userId, review.rating, stars, review.ticketDescription, Colour(review.rating),
                  if ShowsComment(review.comment) then Some(review.comment) else None))
  }

  /** A published review with rating 1 to 5 is always posted when the channel is found. */
  lemma RelayRated(review: Review)
    requires 1 <= review.rating <= 5
    ensures var p := Relay(review, true);
            p.Some? && p.value.stars == Stars(review.rating).value && |p.value.stars| == 5 &&
            p.value.colour == Colour(review.rating) &&
            p.value.comment == (if ShowsComment(review.comment) then Some(review.comment) else None) &&
            p.value.rating == review.rating && p.value.service == review.ticketDescription &&
            p.value.userId == review.userId
  {
    StarsShape(review.rating);
  }

  /** `vouchSessions`: the process-wide session map. */
  class VouchSessions {
    var sessions: Sessions

    constructor ()
      ensures sessions == map[]
    {
      sessions := map[];
    }

    /** The session side of `sendVouchRequest`; `sent` is its return value. */
    method RequestVouch(userId: UserId, description: string, staff: string, dm: Option<MessageId>) returns (sent: bool)
      modifies this
      ensures sent == dm.Some?
      ensures sessions == Prompt(old(sessions), userId, description, staff, dm)
    {
      sent := dm.Some?;
      if sent {
        sessions := sessions[userId := Session(Some(description), Some(staff), dm, None)];
      }
    }

    /** The `vouch_rating` selection. */
    method SelectRating(userId: UserId, value: string)
      modifies this
      ensures sessions == Rate(old(sessions), userId, value)
    {
      var rating := RatingOf(value);
      var current := if userId in sessions then sessions[userId] else Session(None, None, None, None);
      sessions := sessions[userId := current.(rating := rating)];
    }

    /** The `vouch_comment_modal` submission; `post` is what reached the feedback channel. */
    method SubmitComment(userId: UserId, comment: string, channelFound: bool) returns (outcome: SubmitOutcome, post: Option<Post>)
      modifies this
      ensures (sessions, outcome) == Submit(old(sessions), userId, comment)
      ensures post == (if outcome.Published? then Relay(outcome.review, channelFound) else None)
    {
      var data := if userId in sessions then Some(sessions[userId]) else None;
      if data.Some? && data.value.rating.Some? && data.value.rating.value != 0 {
        outcome := Published(Review(userId, data.value.rating.value, data.value.ticketDescription, comment));
        post := Relay(outcome.review, channelFound);
        sessions := sessions - {userId};
      } else {
        outcome := Expired;
        post := None;
      }
    }
  }
}
