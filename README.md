# JW_bot core, modelled in Dafny

JW_bot is a Telegram bot. It registers clients by their phone number. It
lets administrators change a client's phone, and it forwards the row changes
announced on the `client_update` channel (a text, a product photo, a receipt
photo) to the user concerned. This project models the logic under the
transport and database plumbing:

- `validation.dfy` (module `Validation`): the text checks the handlers apply
  to user input. These are `str.strip()`, the phone pattern `^7\d{10}$` as
  `re.match` applies it (with `\d` as every Unicode decimal digit, and `$`
  also matching before a final newline), `str.lower()`, and the cancel-token
  test.
- `database.py` becomes `database.dfy` (module `Database`). The three tables
  `user_info`, `client_info` and `admin_info` are the fields of a `Store`
  class. Each `AsyncDatabase` method is a method of that class, specified by
  a function of the old tables. The outstanding-message tracker (record with
  a set union, read, drain) carries lemmas over whole series of calls.
- `bot.dfy` (module `Bot`): `check_admin`, `safely_delete_last_message` and
  the conversation handlers of `main.py`. The per-user FSM context is a
  `Session` class holding a state and a key/value payload. There is one
  method per handler, and each returns the outbound effects in order: the
  messages, the menus shown, the deletions attempted and the callback
  acknowledgements.
- `relay.dfy` (module `Relay`): the field diff of `on_notify`. It is a pure
  function from the old and new row images to the ordered deliveries, with a
  failure index that truncates them.
- `polling.dfy` (module `Polling`): the reconnect loop of `safe_polling` and
  its capped doubling delay.

A few things are taken as inputs:

- The parsed allow-list of `check_admin` is an `Option<seq<int>>`, with
  `None` for a value that does not parse.
- The parsed notification payload is an `Event` of two row images.
- `os.path.exists` is an uninterpreted predicate `isLocal`.
- The message id Telegram assigns to the confirmation prompt is a parameter
  `sentId`.

Whether a send fails is a parameter wherever the source catches the failure:

- the deletions in `safely_delete_last_message`;
- the notifications to administrators;
- the notification to a client whose phone changed;
- the sends of `on_notify`.

A failed send produces no effect, except a failed deletion, which is
recorded as an attempt `Delete(chat, id, false)`. A database that cannot be
reached is `Store.reachable == false` for the whole handler. The methods
that catch their exceptions then return their defaults. The methods that let
the exception escape report it instead: `get_id_from_phone` and
`get_all_admin_ids` return `Err`, and `change_phone` returns `false`. The
handler stops at that point, as the uncaught exception does in the source.

The payload keys `phone_number`, `old_phone` and `client_tg_id` are the
three constructors of `Bot.Key`, because the handlers write no other key.
The map's type is therefore `map<Key, Value>`, not a map keyed by strings.

The model follows the code as written, including these behaviours:

- A valid phone in `waiting_for_phone` is stored, but the state does not
  change (main.py:168-177). There is no confirmation state.
- `confirm_phone` is accepted in any state (main.py:179).
- `old_phone` is written to the payload before the lookup, so a phone with
  no client still changes the payload (main.py:111-117).
- `change_new_phone` clears the session even when the payload has no client
  id, despite the "try again" text (main.py:152-155).
- `\d` accepts every Unicode decimal digit, not only ASCII ones
  (main.py:107, 133, 164).
- The upper-case entries of the cancel tuple at main.py:101 can never match,
  because they are compared with the lower-cased text.

## Model

| member | source | states |
|---|---|---|
| Validation.StripLeft | main.py:99 | the result is a suffix of the input that does not start with whitespace, and everything removed is whitespace |
| Validation.StripRight | main.py:99 | the result is a prefix of the input that does not end with whitespace, and everything removed is whitespace |
| Validation.IsSpace | main.py:99 | the characters `str.isspace()` accepts, which `strip()` removes |
| Validation.Strip | main.py:99 | `strip()` yields a slice of the input with no whitespace at either end, and everything cut off before and after it is whitespace; it is empty only when the whole input is whitespace |
| Validation.StripOfTrimmed | main.py:99 | a text with no whitespace at either end is its own `strip()` |
| Validation.StripIdempotent | main.py:99 | stripping twice is stripping once |
| Validation.IsDecimalDigit | main.py:107 | `\d`: the decimal digits of Unicode 15.0/15.1, block by block |
| Validation.PhonePatternMatches | main.py:107 | `re.match(r'^7\d{10}$', t)`: a `7`, ten decimal digits, then the end or a single final newline |
| Validation.IsValidPhone | main.py:164 | the stored phone shape: exactly a `7` followed by ten decimal digits |
| Validation.PatternOnStrippedText | main.py:107 | on stripped text, `re.match(r'^7\d{10}$', t)` holds exactly when `t` is `7` followed by exactly ten decimal digits; the newline alternative of `$` cannot occur |
| Validation.ValidPhoneNotAsciiOnly | main.py:107 | `\d` covers every ASCII digit and more: a `7` followed by ten Arabic-Indic digits is accepted |
| Validation.LowerChar | main.py:101 | `lower()` of one character: A-Z and U+0400-U+042F are lowered, so the result is never in those ranges; every other character is returned unchanged |
| Validation.Lower | main.py:101 | `lower()` as a per-character map of `LowerChar` that keeps the length |
| Validation.IsCancel | main.py:127 | `text.lower() in tokens` |
| Validation.CancelTokensAgree | main.py:99-130 | both cancel tests accept exactly `x`, `X`, `х` and `Х`, so they agree; `lower()` never yields the upper-case tokens of the first tuple |
| Database.AsList | database.py:117-123 | a single message id is wrapped into a one-element list; a list is used as it is |
| Database.Cleared | database.py:158-177 | clearing empties the id list of an existing user, keeps the role, and changes no other row; an unknown user changes nothing |
| Database.RegisteredUser | database.py:187-195 | a new user gets a row with the role and an empty id list; an existing id keeps its row, because the INSERT fails and the error is swallowed |
| Database.RegisteredClient | database.py:199-207 | a new client gets a row with the phone; an existing id keeps its row |
| Database.ChangedPhone | database.py:224-228 | only the phone of client `u` changes, and no row is added |
| Database.StoredIds | database.py:103-110 | what a reachable read returns: the stored list, or [] for an unknown user or NULL |
| Database.UnionIds | database.py:134-143 | the UNION query yields every id of the old list and of the given list, each exactly once |
| Database.RowsOf | database.py:230-234 | a query of a single-column table returns each row once |
| Database.NoDupSize | database.py:134-143 | a list without duplicates is as long as its set of ids |
| Database.RecordIdempotent | database.py:132-143 | recording ids that are already stored keeps the stored set and its size |
| Database.RecordSeries | database.py:132-143 | for a user that already has a row, any series of recordings, repeats included, leaves a duplicate-free list holding exactly the ids recorded so far |
| Database.RecordSeriesFromInsert | database.py:132-151 | for a user without a row, whose first recording inserts a duplicate-free list (a single id, as the handlers record), any later series leaves a duplicate-free list holding exactly the ids recorded |
| Database.DrainOnce | database.py:158-177 | after a clear, a read finds no ids, and a second clear changes nothing |
| Database.Store.UserExists | database.py:85-92 | reports membership in `user_info`, and false when the query fails |
| Database.Store.GetLastMessages | database.py:97-113 | returns the stored ids; the empty list for NULL, an unknown user or a failure |
| Database.Store.SetLastMessage | database.py:115-156 | None changes nothing; an existing user's ids become the set union of old and given ids, with the role kept; a missing user gets a new row holding exactly the given ids; no other table or row changes |
| Database.Store.ClearLastMessages | database.py:158-182 | empties the ids of an existing user; an unknown user or a failure changes nothing |
| Database.Store.UserRegistration | database.py:187-195 | inserts the row unless the id exists; a failure changes nothing |
| Database.Store.ClientRegistration | database.py:199-207 | inserts the client row unless the id exists; a failure changes nothing |
| Database.Store.AdminRegistration | database.py:209-217 | adds the id to `admin_info` |
| Database.Store.GetIdFromPhone | database.py:219-222 | returns the id of a client whose phone is `p`, or None exactly when no client has it; a failure raises |
| Database.Store.ChangePhone | database.py:224-228 | sets the phone of client `u` and changes nothing else; a failure raises |
| Database.Store.GetAllAdminIds | database.py:230-234 | returns every administrator exactly once; a failure raises |
| Relay.Recipient | main.py:280 | the recipient resolves exactly when the new image is an object and either its id is non-zero or the old image is an object with an id; otherwise the handler raises |
| Relay.Changed | main.py:284 | `new_value and new_value != old.get(field)` |
| Relay.ContentOf | main.py:288-294 | the text itself, or a photo uploaded from disk when the path is local, else sent as a reference |
| Relay.FieldDelivery | main.py:283-303 | at most one delivery per field, exactly when the field changed, to the recipient and tagged with that field |
| Relay.Planned | main.py:276-303 | at most three deliveries, in the order text, product photo, receipt photo, all to the recipient |
| Relay.RecipientNewElseOld | main.py:280 | the recipient is the new image's `tg_user_id` when set and non-zero, else the old image's |
| Relay.SentIffChanged | main.py:282-303 | a field is delivered exactly when both images are objects, a recipient resolves, and the new value is non-empty and differs from the old one; the content is the new value, uploaded when local |
| Relay.UnchangedSendsNothing | main.py:282-303 | an event whose watched fields are all unchanged delivers nothing |
| Relay.OnlyReceiptChanged | main.py:296-303 | when only the receipt photo changes, exactly that photo is delivered |
| Relay.Delivered | main.py:276-306 | the sends delivered are a prefix of the planned ones: all of them when no planned send fails (no failure, or a failure index past the last send), and exactly those before the failing one otherwise |
| Relay.FailureTruncates | main.py:276-306 | a failing send drops itself and every later send of the event; the earlier sends are delivered in order |
| Polling.Delay | main.py:324-332 | each delay lies between 1 and 60 seconds |
| Polling.DelayIsCappedPower | main.py:324-332 | the delay after the k-th consecutive failure is min(2^(k-1), 60) |
| Polling.DelayReachesCap | main.py:332 | from the seventh failure on, the delay is 60 |
| Polling.DelayMonotonic | main.py:332 | delays never decrease |
| Polling.SafePolling | main.py:323-332 | the loop stops at the first clean start, after sleeping the delays 1, 2, 4, ... capped at 60, one per failed start |
| Bot.CheckAdmin | main.py:220-227 | a user is an administrator exactly when it is in the allow-list; a list that does not parse counts as empty |
| Bot.Deletions | main.py:234-238 | one deletion attempt per recorded id, in order; a failed attempt does not stop the rest |
| Bot.SafelyDeleteLastMessage | main.py:231-241 | attempts to delete every recorded id, then clears the record whatever the deletions did; no other table changes |
| Bot.AdminNotifications | main.py:192-197 | the notifications of the loop, in order, at most one per administrator listed, skipping the failed sends |
| Bot.AdminNotificationsReachAll | main.py:190-197 | every reachable administrator receives the new-client notification, and nobody else does |
| Bot.AdminNotificationsOnce | main.py:190-197 | when every administrator is listed once, no administrator is notified twice |
| Bot.NotifyAdmins | main.py:192-197 | the loop sends the notification to the administrators in order and skips the failed sends |
| Bot.PhoneEntry | main.py:185 | `data.get("phone_number")`: the stored phone, or None |
| Bot.ClientIdEntry | main.py:139-141 | `data.get('client_tg_id')` tested for truthiness: present and non-zero |
| Bot.Session.Clear | main.py:87 | `state.clear()` leaves no state and an empty payload |
| Bot.Session.Start | main.py:58-83 | a known chat gets its menu and nothing changes; a new administrator is welcomed, registered in `user_info` and `admin_info`, and shown the admin menu; a new client is welcomed, registered, asked for a phone, and the session waits for it |
| Bot.Session.AdminChangePhone | main.py:85-95 | clears the session, asks for the old phone, and waits for it |
| Bot.Session.ProcessOldPhone | main.py:97-121 | a cancel token ends the session whatever the payload held, and is tested before the format; a malformed phone changes nothing; a valid phone is stored before the lookup; with no client the state is kept, and with a client its id is stored and the state moves to the new phone |
| Bot.Session.ChangeNewPhone | main.py:123-155 | a cancel token ends the session; a malformed phone changes nothing; a valid phone with a stored client id changes exactly that client's phone, tells the administrator and the client (or that the client could not be told), and ends the session; without a client id the session ends too; this holds for any `client_info` table, and well-formed stored phones stay well formed |
| Bot.Session.ProcessPhoneNumber | main.py:158-177 | a malformed phone changes nothing; a valid one is stored in the payload, the prompt's message id is recorded, and the state stays `waiting_for_phone` |
| Bot.Session.ConfirmPhone | main.py:179-202 | in any state: deletes the recorded messages, registers the client with the payload's phone, confirms, notifies every administrator once, then clears the session and shows the client menu; this holds for any `client_info` table, and well-formed stored phones stay well formed |
| Bot.Session.ChangePhone | main.py:204-212 | clears the session, deletes the recorded messages, asks for the phone again and waits for it |

## Left out

- aiogram transport is not modelled: `Bot`, `Dispatcher`, `Router`, `message.answer`, `send_message`, `send_photo`, `delete_message` and the keyboards appear only as recorded effects. The menus of `main_menu_client` and `main_menu_admin` are single effects, because both catch their own failures.
- `MMenu` (main.py:214-216), the `main_menu` callback, only shows the client menu and changes no state. It is not modelled separately.
- Failures of the sends that the source does not catch are not modelled: the answers in the handlers, and the fallback send at main.py:149. They would abort a handler mid-way.
- The asyncpg pool, `connect`/`close` and the `execute`/`fetch*` wrappers (database.py:30-82) are left out, as is the LISTEN connection of `start_listener` (main.py:265-272, 308-314). `reachable` stands for their failures for the whole of one operation. A failure between two statements of one method is not modelled.
- The table schemas are not part of this model. `tg_user_id` is taken to be the primary key of each table, and `tel_num` to be nullable and not unique.
- asyncio scheduling, `sleep`, `create_task`, and concurrency between handlers are left out. `SafePolling` returns the delays it would sleep instead of sleeping.
- `json.loads`, `ast.literal_eval` and `os.getenv` are left out: their parsed results are inputs. `os.path.exists` is the `isLocal` predicate.
- Relay.Planned: JSON values of a watched field are taken to be strings and ids to be integers. Other JSON types (a numeric text, a string id that `int()` parses) are not modelled.
- Database.RecordSeries: covers only a user that already has a row. A first recording inserts its list argument as given (database.py:145-151), so a list with repeats keeps them; `RecordSeriesFromInsert` covers a first list without repeats, such as a single id.
- config.py (environment and `.env` loading), logging and `print` are left out.
- Validation.LowerChar: lowers only A-Z and U+0400-U+042F. Every other character, including other cased letters such as U+00C0 or U+0460, is returned unchanged. This is enough for the cancel test, because no other character lowers to `x` or `х`.
- Validation.Lower: a length-preserving, per-character approximation of `str.lower()`. Python lowers some characters to two (U+0130 becomes `i` and a combining dot), which this model does not do.
- Validation.IsDecimalDigit: follows the decimal digits of Unicode 15.0/15.1 (Python 3.12 and 3.13). The blocks added by Unicode 16.0 (Python 3.14) are not included.
- Polling.SafePolling: requires that some start eventually returns cleanly. Otherwise the source loops for ever.
- The change-feed listener has no reconnection in the source, so none is modelled.
