# SecureChat core in Dafny

This project models the parts of the SecureChat chat application that can be pinned down exactly, and proves properties of them.

- **The message service** (`message_service.py`), in `message_service.dfy`:
  - the `messages` table, an append-only log of `Message(id, sender, receiver, content, timestamp)`;
  - the `connections` registry, which maps each connected identity to its live channel;
  - `send`, which commits a message and then pushes a frame to the receiver if it is connected;
  - the history and conversations queries.

  `MessageStore` is a class holding the log, the registry and the list of pushed frames (`deliveries`). The two queries are pure functions over the log:
  - `History` filters both directions between two users and sorts by timestamp;
  - `Conversations` groups by the other party, takes the maximum timestamp of each group and sorts most recent first.

  The clock is a natural number supplied by the caller; a channel is an abstract identifier.
- **The user service** (`db_service.py`), in `db_service.dfy`. `UserTable` is a class holding a map from username to user record.
  - Every route is guarded by the internal token (401).
  - `CreateUser`, `UpdateUser` and `DeleteUser` change the map. They return the service's 400 and 404 errors as values.
  - `GetUser` and `ValidateUser` are read-only functions.
  - The class invariant says that every record is stored under its own username and that no two users share an email.
  - Password hashing is symbolic: a hash records the salt and the password it was made from, so a password verifies against a hash exactly when the hash was made from it. The salt and the RSA key pair are random in the service and parameters here.
- **The desktop client's pure rules** (`main.py`), in `client.dfy`:
  - the relative-time label `tempo_relativo`, over integer elapsed seconds;
  - Python's `str.strip`, over its whitespace set written out;
  - the length checks of the account and login forms, a loop with early return;
  - the self-search guard of `__add_contact`;
  - the unread counters `nao_lidas`, the state of a `Session` class along with the conversation cards and the current contact.

`sorting.dfy` holds a stable insertion sort by integer key, used for both `ORDER BY` clauses. `wrappers.dfy` holds `Option`, `Result` and `Outcome`.

## Behaviour of the code worth noting

- **Push failure.** A push whose `send_json` raises is not swallowed. The exception leaves `send_message`, so the route answers with a server error even though the row is already committed (message_service.py:92-101). `MessageStore.Send` models this with its `pushFails` parameter: the result is `InternalServerError`, the message is logged, and no frame is recorded.
- **A stale channel removes its replacement.** The failure handler pops the entry for the username, whichever channel it holds (message_service.py:72-77). So when an older channel of a reconnected user fails, the newer live channel loses its registry entry. `StaleChannelFailure` shows that a message sent afterwards is logged but pushed nowhere.
- **Ties.** SQL leaves the order of equal timestamps open. The model keeps log order for ties in history, and order of first appearance for ties in conversations. Ties are not broken by counterpart name.

## Model

| member | source | states |
|---|---|---|
| MessageService.MessageStore.constructor | message_service.py:25-34 | The store starts with an empty log, no registered connections and no pushed frames; message ids are 1, 2, 3, ... in insertion order. |
| MessageService.MessageStore.Send | message_service.py:83-103 | Exactly one message (next id, the request's sender, receiver and content, the clock value) is appended and earlier rows are unchanged. If the receiver is registered, one frame with the stored message's sender, content and timestamp goes to its channel, after the commit. Otherwise no frame is produced. The result is "ok" unless the push raised, which gives a server error with the message still logged. The registry is unchanged. |
| MessageService.MessageStore.Connect | message_service.py:69-72 | The identity now maps to the new channel, silently replacing any previous one; other identities, the log and the frames are unchanged. |
| MessageService.MessageStore.ChannelFailed | message_service.py:73-77 | The identity's entry is removed if present (removing an absent one changes nothing); everything else is unchanged. |
| MessageService.StaleChannelFailure | message_service.py:72-101 | Connecting twice and then losing the first channel leaves the identity unregistered, so a later message to it is logged but produces no frame. |
| MessageService.HistoryExactly | message_service.py:111-113 | For every message m: history(u1,u2) holds m exactly as often as the log does if m goes u1->u2 or u2->u1, and not at all otherwise. |
| MessageService.HistorySymmetric | message_service.py:111-114 | history(u1,u2) equals history(u2,u1). |
| MessageService.HistoryOrdered | message_service.py:114 | History is ordered by non-decreasing timestamp. |
| MessageService.HistoryAfterAppend | message_service.py:92-93 | Appending a message adds it once to the history of its two parties and leaves every other pair's history unchanged, so a pushed message is always in later history. |
| MessageService.ConversationsContacts | message_service.py:122-136 | Contact c is listed exactly when some logged message has the user as one party and c as the other (the receiver when the user sent it, else the sender). |
| MessageService.ConversationsDistinct | message_service.py:136 | No contact appears twice. |
| MessageService.ConversationsLastTime | message_service.py:130 | Each listed time is the maximum timestamp over the messages between the user and that contact. |
| MessageService.ConversationsOrdered | message_service.py:137 | The list is ordered by non-increasing last time. |
| MessageService.ConversationsMostRecentFirst | message_service.py:118-142 | A talks with B at t1 and C writes to A at t2 > t1: A's conversations are exactly [(C, t2), (B, t1)]. |
| MessageService.GroupCorrect | message_service.py:127-136 | The grouping lists each contact once, each with its maximum timestamp, and covers every message involving the user. |
| DbService.RequireInternalToken | db_service.py:77-80 | The check passes exactly when the header is present and equal to the configured token; otherwise it fails with 401. |
| DbService.HashPassword | db_service.py:87-101 | The password a hash was made from verifies against it, and the hash carries the given salt. |
| DbService.UserTable.constructor | db_service.py:15-40 | The table starts empty. The internal token is the one in `DB_INTERNAL_TOKEN` when that is set, and "dev-internal-token" otherwise. |
| DbService.UserTable.GetUser | db_service.py:189-198 | A bad token gives 401 and an unknown username 404. Otherwise the result is that user's name, username and public key. |
| DbService.UserTable.ValidateUser | db_service.py:200-214 | A bad token gives 401. Otherwise ok is true exactly when the user exists and the password verifies. If ok, all the user's stored fields are returned; if not, none are. |
| DbService.UserTable.CreateUser | db_service.py:105-140 | A bad token gives 401, then an existing username 400, then an existing email 400, each with the table unchanged. Otherwise exactly one record is added under the new username, with the given name and email, the hashed password, the generated keys and empty contacts. GetUser then returns it and ValidateUser accepts its password. Emails stay unique. |
| DbService.UserTable.UpdateUser | db_service.py:142-174 | A bad token gives 401 and an unknown user 404, with no change. A supplied new email used by another user gives 400, with no change. The update succeeds exactly when none of these applies. Then only the supplied (non-empty) email, name and password fields of that record change, the username key and all other records stay as they were, emails stay unique, and a new password validates. |
| DbService.UserTable.DeleteUser | db_service.py:176-187 | A bad token gives 401 and an unknown user 404, with no change. Otherwise exactly that record is removed, GetUser then gives 404, and all other records stay. |
| Client.Classify | main.py:409-422 | Fewer than 60 seconds is "now". 60 ≤ s < 3600 gives minutes n = ⌊s/60⌋ in 1..59. 3600 ≤ s < 86400 gives hours in 1..23. s ≥ 86400 gives days ≥ 1. Each count n satisfies n·unit ≤ s < (n+1)·unit. |
| Client.RelativeTimeNow | main.py:415-416 | The label is "agora" exactly when fewer than 60 seconds have elapsed. |
| Client.RenderInjective | main.py:415-422 | Two different buckets or counts never give the same label. |
| Client.NatToString | main.py:418 | The number in the label is a non-empty string of decimal digits without a leading zero. |
| Client.ParseNatToString | main.py:418-422 | Reading the digits back gives the number. |
| Client.Strip | main.py:511 | The result is the slice of the input left after removing every leading and trailing whitespace character; it neither starts nor ends with whitespace. |
| Client.FirstShortField | main.py:510-513 | No index is returned exactly when every field has at least 3 characters after stripping. Otherwise the result is the first field that has fewer. |
| Client.CheckAccountForm | main.py:501-518 | The first of name, username, email and password with fewer than 3 stripped characters is reported, with no request. The password confirmation is compared only when all four pass. The request is made exactly when all pass and the passwords match. |
| Client.CheckLoginForm | main.py:544-555 | Username, then password, must have at least 3 stripped characters before the login request is made. |
| Client.Session.constructor | main.py:124-127 | A new session has no current contact, no cards and no counters. |
| Client.Session.LoginSucceeded | main.py:575-578 | A successful login clears all cards and unread counters. |
| Client.Session.CardCreated | main.py:456-487 | Creating a card gives a contact without a counter the counter 0, and sets a zero counter to 1 when the contact was active in the last minute. A positive counter is kept. |
| Client.Session.MessageReceived | main.py:238-263 | A live message from a contact with a card raises its counter by exactly one. A sender without a card whose lookup answers 200 gets a card and the count 1. A sender with no counter whose lookup answers otherwise makes the handler fail with nothing changed. |
| Client.Session.OpenContactChat | main.py:390-407 | When the lookup answers 200, the contact becomes current and its counter is reset to 0. Any other answer changes nothing. |
| Client.Session.AddContact | main.py:322-339 | Searching for one's own username is ignored: no lookup, no change of current contact. Otherwise a 200 answer makes the searched username current, and any other answer gives a warning. |

## Left out

- gateway_service.py is not part of this model. Its relay is two concurrently gathered forwarding loops, its reconnect loop is unbounded and sleeps between attempts, and its routes pass requests through.
- auth_service.py is not part of this model: it mints tokens with a foreign JWT library and forwards HTTP status codes.
- The load-test and seeding scripts (teste_paralelismo.py, worker.py, master_test.py, cria_usuarios.py) are not part of this model; they have no logic of their own.
- DbService.HashPassword: bcrypt's 72-byte limit is not modelled. bcrypt ignores password bytes past the 72nd of the UTF-8 encoding, so two such passwords verify against each other, and newer bcrypt releases refuse them with a `ValueError` (a 500 from `create_user` that `CreateUser` does not have). The contract promises only that the original password verifies.
- bcrypt hashing and base64 wrapping are modelled symbolically; RSA key generation and PEM serialisation are a `KeyPair` parameter.
- DbService.UserTable.UpdateUser: its response after the commit, a `UserOut` built without `public_key`, is not modelled; the model returns `Pass` once the change is made.
- pydantic validation (`EmailStr`) is not modelled, and emails are arbitrary strings. The same goes for SQLAlchemy sessions, the database's own unique constraint (the route checks first), and interleavings of concurrent requests.
- JSON and `isoformat` serialisation are not modelled: timestamps are naturals and a push frame is a `Frame` value. The transport (`send_json`) is not modelled beyond the `pushFails` outcome. The client-side receive loop of `/ws/{username}` is not modelled beyond its failure.
- Which clock the store reads (`datetime.now()` at message_service.py:89, overriding the `utcnow` default) is not modelled: the time is a parameter, and timestamps are not assumed to increase.
- Client.Classify: elapsed time is integer seconds, the floor of `total_seconds()`. That gives the same label for every real value, because the thresholds are integers; parsing the ISO string and reading the clock are not modelled.
- Client.Session.MessageReceived: the refresh of the contact list at main.py:265 is not composed into it. That refresh re-fetches the conversations over HTTP; its effect on the counters is what Client.Session.CardCreated and Client.Session.OpenContactChat state.
- The exception path of card creation (main.py:249-252), the widgets, the message boxes and the websocket listener thread are not modelled.
- Client.Session.AddContact, Client.Session.OpenContactChat, Client.Session.MessageReceived: a lookup answer enters only as "answered 200 or not". Through the gateway (gateway_service.py:94-96) an unknown user also answers 200, with the body `{"detail": "Usuário não encontrado"}`. The model then records the searched username as current contact. It does not capture that the error body itself becomes `current_contact`, nor the KeyError on `'name'` that `open_chat` raises next (main.py:318).
- Client.Session.AddContact: the logged-out case is not modelled; the user's own username is a parameter.
