# Ticket and feedback bookkeeping of the Romel's Stock Discord bot

This project models the ticket and feedback bookkeeping of `bot.js`, a Discord bot for a marketplace server, and proves
properties of the model.

- **Tickets.** A member picks a service from a panel. The bot then opens a private ticket channel and records the
  ticket in `tickets.json`. Staff close a ticket with a two-step button.
- **Feedback.** Closing a ticket sends the owner a direct message asking for a rating from one to five stars and an
  optional comment. The review is then posted to a feedback channel.

Everything the platform answers is a parameter, so nothing depends on Discord:

- the lookup of a channel;
- the channel a creation made;
- the fetch of a user;
- the direct message that was sent;
- whether the feedback channel was found;
- the current time.

The model has these modules:

- `Text`: the JavaScript string operations the bot relies on:
  - `split` with a one-character separator, and `join`;
  - `repeat`;
  - `trim`, over the ECMAScript whitespace set;
  - `startsWith`;
  - the decimal part of `parseInt`.
- `Document`: the `SimpleDB` class over a JSON value tree.
  - `get` folds optional property access over a dotted path.
  - `set` walks the path and replaces each falsy value on the way by `{}`. It keeps the objects it passes on a spine
    of frames and reassembles the tree afterwards.
  - The class body is strict-mode code, so writing a property of a string, number, boolean or `null` throws a
    TypeError, and the file stays as it was.
  - Writing a property of an array adds a named property, which JSON serialisation drops.
  - `resetUserTickets` deletes a user's entry only when the entry is truthy.
  - The `!reset-tickets` command runs outside the class, in sloppy mode. There a property written on a primitive is
    lost silently, and only a `null` document throws.
- `TicketStore`: the typed view of the file.
  - Each user has a list of ticket records, and there is a counter.
  - An explicit key order reproduces the iteration order of `for..in`.
  - `class TicketDb` has one method per database call the bot makes.
- `StoreEncoding`: how a typed store sits in the JSON document. Each typed database call is proved to be exactly what
  `SimpleDB` does to the encoded document. This holds for user ids without a `.`, which Discord's digit-string ids
  never contain, and up to the key order, which the document's objects do not record.
- `Lifecycle`:
  - `createTicket`, with conflict detection, the purge of a stale history and numbering from the counter;
  - the `confirm_close` scan, which finds the first user in key order with a record open on the channel;
  - the closure itself.
- `Feedback`: the `vouchSessions` state machine (prompt, rating, comment) and the rendering of a review:
  - the star bar;
  - the colour band;
  - whether the comment is shown.
- `Panel`: the service menu and the parsing of the buy or sell choice.
- `Bot`: the handlers of `interactionCreate` and `messageCreate`. Each routes one event to the operations above.

Two details of the code matter for the lifecycle:

- A channel lookup that resolves to nothing falls through to creation without purging the old record.
  `NullLookupLeavesTwoOpen` shows the result: a user with two open tickets. The purge happens when the fetch throws,
  or when the fetch finds the channel and the "Already Have Open Ticket" reply after it throws; both land in the same
  `catch` (bot.js:103-120).
- The feedback session also stores the id of the direct message. The session exists only when that message was sent.

## Model

| member | source | states |
|---|---|---|
| Text.StartsWith | bot.js:379 | `customId.startsWith('buy_sell_')`; `BuySellMenuShape` shows the second menu's id passes it |
| Text.Split | bot.js:33 | `key.split('.')` always yields at least one piece, and no piece contains the separator |
| Text.JoinSplit | bot.js:28 | joining the pieces of a split with the separator gives back the original key |
| Text.SplitJoin | bot.js:380 | splitting pieces that were joined and are free of the separator gives back exactly those pieces |
| Text.Repeat | bot.js:298 | `c.repeat(n)` has length `n`, and every character is `c` |
| Text.TrimStart | bot.js:317 | the result is a suffix of the input that starts with a non-whitespace character, and everything removed is whitespace |
| Text.TrimEnd | bot.js:317 | the result is a prefix of the input that ends with a non-whitespace character, and everything removed is whitespace |
| Text.Trim | bot.js:317 | `s.trim()` is no longer than `s`, and a non-empty result starts and ends with a non-whitespace character |
| Text.TrimEmpty | bot.js:317 | `s.trim()` is empty exactly when every character of `s` is ECMAScript whitespace |
| Text.DigitRun | bot.js:390 | the run of digits `parseInt` reads is maximal: all digits, followed by a non-digit or the end |
| Text.ParseInt | bot.js:390 | `parseInt` is NaN exactly when no digit follows the optional sign |
| Text.ParseDecimal | bot.js:390 | `parseInt` reads back the decimal rendering of every natural number |
| Document.Child | bot.js:28 | `obj?.[k]`: an own key of an object, otherwise `undefined`; `WalkAppend` and `GetMissingSegment` build on it |
| Document.Truthy | bot.js:37 | JavaScript truthiness of a value or `undefined`; `SetCreatesIntermediates` and `ResetUserEffect` state what `set` and `resetUserTickets` do with it |
| Document.Walk | bot.js:26-29 | `get` on `undefined` is `undefined`, and a non-empty path yields a value only from an object |
| Document.WalkAppend | bot.js:28 | `get` folded over a concatenated path equals folding over the first part, then the second |
| Document.GetMissingSegment | bot.js:28 | once a prefix of the path is missing, `get` yields `undefined` for the whole path |
| Document.Assign | bot.js:36-41 | `set` writes only into an object or an array. An array is left as it was, and a written object gains exactly the first key of the path |
| Document.FreshAssignWritten | bot.js:36-41 | every path below a freshly created `{}` can be written without a TypeError |
| Document.SettableWritten | bot.js:36-41 | on an object whose intermediates are objects or falsy, `set` succeeds and the root stays an object |
| Document.SetThenGet | bot.js:26-43 | after a successful `set(key, v)` on such a path, `get(key)` returns `v` |
| Document.SetKeepsOthers | bot.js:36-41 | `set` leaves every path that diverges from the written one reading as before |
| Document.SetCreatesIntermediates | bot.js:36-39 | every falsy or missing intermediate of the path reads as an object after `set` |
| Document.ResetUser | bot.js:45-51 | `resetUserTickets` throws exactly on a `null` document, keeps the document's keys, and leaves a document that is not an object as it was |
| Document.ResetUserEffect | bot.js:45-51 | after `resetUserTickets` on an object document, the user's entry is gone or falsy. Every path that leaves `tickets.<id>`, including other users and `counter`, reads as before |
| Document.ResetUserIdempotent | bot.js:45-51 | a second `resetUserTickets` of the same user changes nothing |
| Document.ClearTickets | bot.js:592-594 | the sloppy-mode `data.tickets = {}` throws exactly on a `null` document, gives an object document a `tickets` key, and leaves another primitive as it was |
| Document.ClearTicketsEffect | bot.js:592-594 | after `data.tickets = {}`, no user has an entry, and `counter` reads as before |
| Document.WritePath | bot.js:36-41 | the loop-based walk of `set`, with its frame spine, produces exactly the written tree or the TypeError of the recursive definition |
| Document.SimpleDB.constructor | bot.js:12-16 | an existing file is kept, and a missing one starts as `{ tickets: {}, counter: 0 }` |
| Document.SimpleDB.Get | bot.js:26-29 | `get` of a key without a dot reads that top-level property of the document |
| Document.SimpleDB.Set | bot.js:31-43 | the new document is the written tree, and a TypeError leaves the document unchanged |
| Document.SimpleDB.ResetUserTickets | bot.js:45-51 | the document becomes the reset document, and is unchanged when the source throws |
| Document.SimpleDB.ResetAllTickets | bot.js:592-594 | the document's `tickets` becomes `{}`, and the document is unchanged when the source throws |
| TicketStore.UserTickets | bot.js:100 | `get('tickets.<id>') \|\| []` reads the user's list, or `[]` when there is none; `GetUserTicketsRefines` relates it to the document |
| TicketStore.CounterOrZero | bot.js:136 | `get('counter') \|\| 0` reads the stored counter, or 0 when there is none; `GetCounterRefines` relates it to the document |
| TicketStore.PutUserTickets | bot.js:162 | writing a user's list replaces that user's entry only and keeps the counter |
| TicketStore.PutCounter | bot.js:163 | writing the counter keeps every list and the key order, and `counter \|\| 0` then reads the new value |
| TicketStore.Without | bot.js:48 | deleting a key from the key order removes exactly that key and keeps the others distinct |
| TicketStore.WithoutAbsent | bot.js:48 | deleting a key that is not in the key order leaves the order as it is |
| TicketStore.WithoutAt | bot.js:48 | deleting a key that occurs once removes that position and keeps every other key in its order |
| TicketStore.RemoveUser | bot.js:45-51 | a reset drops the user's list and keeps every other list and the counter; the key order loses that user only when the user had a list |
| TicketStore.ClearAll | bot.js:592-594 | the admin reset leaves no list and no key order, and keeps the counter |
| TicketStore.PutUserTicketsWellFormed | bot.js:162 | writing a list keeps the key order in step with the keys: an existing user keeps their place, and a new user goes last |
| TicketStore.RemoveUserEffect | bot.js:45-51 | a reset removes exactly that user, keeps every other list and the counter, is idempotent, and closes that user's gap in the key order with every other user kept in place |
| TicketStore.ClearAllEffect | bot.js:592-594 | the admin reset empties `tickets` and keeps `counter` |
| TicketStore.RemoveUserInvariants | bot.js:45-51 | a reset keeps "every number is at most the counter" and "at most one open ticket per user" |
| TicketStore.ClearAllInvariants | bot.js:592-594 | after the admin reset, both store invariants hold |
| TicketStore.TicketDb.constructor | bot.js:12-16 | a fresh store is empty, with counter 0 |
| TicketStore.TicketDb.GetUserTickets | bot.js:100 | `get('tickets.<id>') \|\| []` reads the user's list, or `[]` when there is none |
| TicketStore.TicketDb.GetCounter | bot.js:136 | `get('counter') \|\| 0` reads the stored counter, or 0 when there is none |
| TicketStore.TicketDb.SetUserTickets | bot.js:162 | the store becomes the one with the user's list replaced |
| TicketStore.TicketDb.SetCounter | bot.js:163 | the store becomes the one with the new counter |
| TicketStore.TicketDb.ResetUserTickets | bot.js:45-51 | the store becomes the one without that user |
| TicketStore.TicketDb.ResetAll | bot.js:592-594 | the store becomes the one with no tickets |
| StoreEncoding.EncodeTicket | bot.js:148-158 | the JSON object a ticket record is saved as; `DecodeEncodeTicket` shows it loses nothing |
| StoreEncoding.Encode | bot.js:14 | the file layout `{ tickets: {…}, counter }`; `EncodeInitial`, `EncodeInjective` and the `…Refines` lemmas state it |
| StoreEncoding.DecodeEncodeTicket | bot.js:148-158 | every ticket record reads back as itself from its JSON object |
| StoreEncoding.EncodeInjective | bot.js:148-163 | two stores with the same document have the same lists and counter |
| StoreEncoding.EncodeInitial | bot.js:14 | the empty typed store is the document a fresh file holds |
| StoreEncoding.GetUserTicketsRefines | bot.js:100 | `get('tickets.<id>') \|\| []` on the document reads the encoded typed list |
| StoreEncoding.GetCounterRefines | bot.js:136 | `get('counter') \|\| 0` on the document reads the typed counter |
| StoreEncoding.SetUserTicketsRefines | bot.js:162 | `set('tickets.<id>', ts)` on the document is the encoding of the typed write |
| StoreEncoding.SetCounterRefines | bot.js:163 | `set('counter', n)` on the document is the encoding of the typed counter write |
| StoreEncoding.ResetUserRefines | bot.js:45-51 | `resetUserTickets` on the document is the encoding of the typed reset |
| StoreEncoding.ClearTicketsRefines | bot.js:592-594 | the admin reset on the document is the encoding of the typed clear |
| Lifecycle.IsOpen | bot.js:101 | the `find` predicate `ticket.open`; `CreateConflict` states the search it drives |
| Lifecycle.IsOpenOn | bot.js:473 | the `find` predicate of the close scan; `Locate` states the search it drives |
| Lifecycle.FindIndex | bot.js:101 | `find` returns the first element that satisfies the predicate, or nothing when no element does |
| Lifecycle.Create | bot.js:94-213 | `createTicket`'s effect on the store: conflict, purge, numbering and registration; its outcomes are stated by the `Create…` lemmas below |
| Lifecycle.CreateConflict | bot.js:100-117 | creation is refused exactly when the user's first open record has a channel that still resolves, and the store is then untouched |
| Lifecycle.CreateAppends | bot.js:136-163 | a creation numbers the ticket `(counter \|\| 0) + 1`, appends exactly one open record with that number and channel to the list it re-read (empty after a purge), and stores the number as the counter. No other user changes |
| Lifecycle.CreateSucceeds | bot.js:102-163 | when the open-ticket check does not end in a conflict, creation succeeds exactly when the channel was created, and records that channel |
| Lifecycle.CreateFailed | bot.js:103-145 | when channel creation throws, the store is the user's purged history exactly when the open record's lookup or conflict reply threw, and is otherwise unchanged |
| Lifecycle.Register | bot.js:136-163 | numbering, the new open record and the counter write after the open-ticket check; `RegisterKeepsOneOpen` and `CreateAppends` state its effect |
| Lifecycle.NullLookupLeavesTwoOpen | bot.js:103-121 | when the old channel's lookup resolves to nothing, the new ticket sits beside the old open one |
| Lifecycle.CreateNumbersFresh | bot.js:136-163 | creation keeps every stored number at most the counter, and the new number exceeds every earlier one |
| Lifecycle.CreateKeepsOneOpen | bot.js:99-163 | creation keeps at most one open ticket per user whenever no open ticket's lookup resolves to nothing |
| Lifecycle.RegisterKeepsOneOpen | bot.js:160-162 | appending the new open record to a list with no open record leaves at most one open |
| Lifecycle.FirstTicket | bot.js:136-163 | on a fresh store, the first ticket is number 1, and the counter becomes 1 |
| Lifecycle.Locate | bot.js:471-479 | the scan finds the first user in key order with a record open on the channel, and that user's first such record, or reports that no user has one |
| Lifecycle.LocateFirst | bot.js:471-479 | the scan stops at the first user who has a match |
| Lifecycle.Close | bot.js:462-514 | `confirm_close`'s effect on the store and the sessions; `CloseEffect` and `CloseSucceeds` state it |
| Lifecycle.CloseEffect | bot.js:466-513 | confirming a close flips exactly the located record to closed, with `closedAt` and `closedBy`. Every other record, the keys, the order and the counter stay. Without a match, or when the owner cannot be fetched, nothing changes |
| Lifecycle.CloseSucceeds | bot.js:466-513 | a close succeeds exactly when the scan finds an open record on the channel, its owner's id is non-empty and the owner can be fetched. The owner is the user the scan stopped at, and a session is started exactly when the direct message was sent |
| Lifecycle.ReplaceRecord | bot.js:489-493 | writing back a list with one record replaced keeps the keys, the order, the counter and every other record |
| Lifecycle.CloseKeepsInvariants | bot.js:489-493 | closing keeps both store invariants |
| Lifecycle.CloseRecordKeepsInvariants | bot.js:489-493 | replacing a record by a closed one with the same number keeps both store invariants |
| Lifecycle.CheckOpenTicket | bot.js:100-121 | the open-ticket check reports a conflict exactly for a resolving channel and purges exactly when the lookup or the conflict reply threw |
| Lifecycle.RegisterTicket | bot.js:136-163 | the registration steps leave the store and outcome the creation function describes |
| Lifecycle.CreateTicket | bot.js:94-213 | `createTicket`, step by step, leaves the store and outcome of the creation function |
| Lifecycle.FindTicket | bot.js:466-479 | the `for..in` scan loop over the live store returns exactly what `Locate` specifies |
| Lifecycle.ConfirmClose | bot.js:462-514 | the `confirm_close` handler leaves the store, the sessions and the outcome of the closure function |
| Feedback.Prompt | bot.js:270-286 | a sent prompt stores an unrated session with the description, staff member and message id, replacing any earlier one and keeping other users; an unsent one changes nothing |
| Feedback.RatingOption | bot.js:236-266 | the `vouch_N` value of the rating menu's options; `RatingOfOption` shows each parses back to N |
| Feedback.RatingOf | bot.js:390 | `parseInt(value.split('_')[1])`, NaN when there is no second piece; `RatingOfOption` states that every offered value reads back |
| Feedback.RatingOfOption | bot.js:390 | each offered `vouch_N` parses back to the rating N |
| Feedback.Rate | bot.js:389-396 | the spread of the old session with the new rating; `RateEffect` states its effect |
| Feedback.RateEffect | bot.js:390-396 | a rating selection records the parsed rating, keeps the description, staff member and message id the prompt stored, and touches no other user |
| Feedback.CanPublish | bot.js:419 | `vouchData && vouchData.rating`; `SubmitEffect` shows it decides publishing |
| Feedback.Submit | bot.js:415-436 | publishing or "Session expired"; `SubmitEffect` states both cases |
| Feedback.SubmitEffect | bot.js:417-435 | a comment publishes exactly when the session has a non-zero rating. Publishing deletes the session and carries its rating, description and the comment. Otherwise nothing changes |
| Feedback.SubmitTwiceExpires | bot.js:419-435 | a second submission after a published one reports "Session expired" |
| Feedback.PromptAloneExpires | bot.js:276-280 | a prompted but unrated session never publishes |
| Feedback.RateFourThenComment | bot.js:390-421 | prompt, then rating 4, then a comment publishes the rating 4 with the description and the comment, and removes the session |
| Feedback.Stars | bot.js:298 | the star bar, undefined where `repeat` throws; `StarsShape` states its shape |
| Feedback.StarsShape | bot.js:298 | the star bar exists exactly for ratings 0 to 5 and then has five symbols, the first `rating` of them filled |
| Feedback.Colour | bot.js:299-302 | the colour chosen by the rating; `ColourBands` states the bands |
| Feedback.ColourBands | bot.js:299-302 | ratings 1 to 5 get five distinct colours, and every rating outside 2 to 5 gets red |
| Feedback.ShowsComment | bot.js:317 | the comment field's condition; `ShowsCommentExactly` states when it holds |
| Feedback.ShowsCommentExactly | bot.js:317 | the comment field appears exactly when the comment has a non-whitespace character |
| Feedback.Relay | bot.js:290-330 | a review is posted exactly when the feedback channel is found and the rating is between 0 and 5 |
| Feedback.RelayRated | bot.js:298-322 | a review rated 1 to 5 is posted for its user, with its rating, its ticket description as the service, five stars, its rating's colour, and the review's own comment exactly when the comment shows |
| Feedback.VouchSessions.constructor | bot.js:83 | the session map starts empty |
| Feedback.VouchSessions.RequestVouch | bot.js:270-286 | a session is stored, replacing any earlier one, exactly when the direct message was sent, and the result says whether it was |
| Feedback.VouchSessions.SelectRating | bot.js:389-396 | the sessions become the rated sessions |
| Feedback.VouchSessions.SubmitComment | bot.js:415-436 | the sessions and outcome are those of a submission, and the post is the relay of a published review |
| Panel.ServiceName | bot.js:342 | `Limiteds` for limiteds and `Dahood Skins` for anything else; `BuySellParts` and `BuySellMenuAgrees` use it |
| Panel.SelectService | bot.js:338-376 | the service menu's effect; `ServiceDispatch` and `BuySellMenuShape` state it |
| Panel.ServiceDispatch | bot.js:338-376 | only the three panel services lead anywhere, and only `services` opens a ticket at once |
| Panel.BuySell | bot.js:379-386 | the ticket type and description of a buy or sell choice; `BuySellParts` states how they are read |
| Panel.BuySellParts | bot.js:380-383 | `action_service` opens a ticket of type `action-service`, described by its direction and service name |
| Panel.BuySellMenuShape | bot.js:341-370 | the second menu for limiteds or dahood reaches the `buy_sell_` handler and offers `buy_<service>` and `sell_<service>` |
| Panel.BuySellMenuAgrees | bot.js:341-385 | the two options of that menu open `buy-<service>` and `sell-<service>` tickets named after the service |
| Bot.OnSelectMenu | bot.js:338-412 | the service, buy/sell and rating menus have exactly the effects of creation, rating or no change, and unrelated menus change nothing |
| Bot.OnModalSubmit | bot.js:415-436 | the comment form performs a submission, and any other form changes nothing |
| Bot.OnButton | bot.js:439-522 | `confirm_close` performs the closure, while `close_ticket`, `cancel_close` and other buttons change neither the store nor the sessions |
| Bot.HandleMessage | bot.js:545-604 | the admin reset happens exactly on `!reset-tickets` from a member with the admin role, the panel is posted exactly on `!setup-tickets` from an administrator, and bot messages are ignored |

## Left out

- Discord presentation: embeds, buttons, forms, replies, the ephemeral flag, login and presence. Only which reply
  was chosen is modelled.
- The setup panel's embed and menu contents, and the emoji-id extraction of its options, are presentation.
- File I/O and JSON text:
  - The document is an in-memory value.
  - A `tickets.json` that does not parse is not modelled.
  - The order of keys inside a generic JSON object is not modelled. The typed store records the user key order,
    which is what `for..in` observes.
- Property lookups that are not own object keys are not modelled: array indices, `length`, string indices and
  inherited prototype properties on a `get` or `set` path. Reading through an array or a primitive yields
  `undefined`.
- The `for..in` order puts integer-like keys first. User ids are snowflakes far beyond the array-index range, so
  insertion order is used.
- Numbers are unbounded integers. Floating point, NaN in the counter and `-0` are not modelled.
- Timestamps are opaque strings passed in. Relative-time markup in embeds is not modelled.
- Concurrency: each handler runs atomically. The interleaving of two handlers across their `await` points, for example
  two creations racing, is not modelled.
- The delayed channel deletion (`setTimeout`) and the immediate deletion of an unmatched channel are not modelled.
  Only the outcome is reported.
- Failures of sends that do not change state are not modelled:
  - the ticket message;
  - the success edit;
  - the closing notice;
  - the feedback channel post beyond `channelFound`.
- A failed loading reply before channel creation has the same effect on the store as a failed creation, which
  `created = None` covers.
- Lifecycle.ConfirmClose and Lifecycle.Close have no input for a rejected `deferUpdate` (bot.js:464). That rejection
  reaches the handler's `catch` before the scan, so no record is closed, no direct message is sent and no session is
  stored: the store and the sessions stay as they are, as with `userFetched = false`.
- The top-level error handlers only send messages and are not modelled.
- A stored entry that is not a list of ticket records (a file edited by hand) is outside the typed store. The
  generic document layer still handles such values in `get`, `set` and `resetUserTickets`.
- `parseInt` leading whitespace and radix prefixes are not modelled, because every parsed value comes from the bot's
  own `vouch_N` options.
- Permission and role checks are boolean parameters.
- Sessions never expire in the source, so there is no expiry.
- Lifecycle.CreateTicket: the channel lookup, `guild.channels.create` and the current time are parameters, and a failed
  creation is `created = None`.
- Lifecycle.ConfirmClose: the owner fetch and the direct message are parameters. The scan reads the store as it is
  at the time of the click.
