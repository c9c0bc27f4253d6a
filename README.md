# lomi_chat matchmaking and billing, modelled in Dafny

lomi_chat is a Telegram bot that pairs users for anonymous chat. The user who starts a
conversation pays for it in points, and the user who is found earns them. The repository holds
four overlapping variants of the same logic, and this project models the matchmaking and
billing core of each:

- `app.py` (module `AppBot`) keeps users in a SQLite table. Every `update_user_data`
  rewrites the whole row with `INSERT OR REPLACE`.
- `lomi.py` (module `LomiBot`) keeps users in a JSON object of dicts.
- `database.py` (module `Db`) is the `Database` class. Its users, conversations and
  transactions tables are sequences of rows in rowid order, and its UPDATE statements are
  functions over them.
- `Main.py` (module `MainBot`) is the bot front end built on `Database`. It has the
  ChatManager, the MatchPool and the UserManager validators.

Two small modules support them. `Common` holds `Option`, `Result`, the message units and
their costs, and the partial-dict updates. `Text` holds ASCII `str.lower`, `str.strip`,
decimal conversion and `safe_int`.

Each store is a class whose fields the handlers reassign. Each handler is a method. Its
contract states the new store as a function of the old one, and the lemmas prove what the
bot promises about those functions:

- a transfer conserves points, and a guarded debit never leaves a negative balance;
- pairing links two users symmetrically. Every app.py and lomi.py handler keeps the links
  symmetric, except that the age-preference handlers do so only for a seeker not already in a
  conversation: they never check it, and re-pairing a chatting seeker leaves the old partner
  naming them. Main.py's leave frees only the caller, so the partner still names the caller
  (`MainBot.LeftAlone`);
- teardown resets both users;
- a partial update changes nothing it does not name;
- find_partner returns the first qualifying user in store order.

Telegram's transport, file storage, the clock and randomness are outside the model. The
current time is a parameter, and a random choice is "some element of the list".

## Model

| member | source | states |
|---|---|---|
| Text.SafeInt | app.py:653-656 | None, or any casing of "none", reads as no partner; an optionally signed string of ASCII digits reads as its integer; any other string is a ValueError (the strings the partner column holds are `str(int)`, 'None' and '') |
| Text.SafeIntOfIntToString | app.py:653-656 | safe_int reads back every integer written with str() |
| Text.SafeIntOfNone | app.py:653-656 | every casing of "none" reads as no partner |
| Text.StripIsTrimmedSlice | Main.py:452 | str.strip() returns the input with whitespace cut from both ends and keeps everything else |
| Text.LowerEquals | Main.py:440 | lower-casing equals a lower-case word exactly when the two match character by character, ignoring case |
| Common.OverrideIdempotent | lomi.py:74-80 | applying the same dict.update twice gives what applying it once gives |
| Common.OverrideSequence | lomi.py:74-80 | two successive dict.updates equal one update by their merge |
| AppBot.ReadWritePartner | app.py:111-112 | a partner written to its TEXT column reads back through safe_int as the same partner, including no partner ('None') |
| AppBot.ScanAgreesWithRead | app.py:191-192 | wherever get_all_users' int() succeeds, it agrees with get_user_data's safe_int |
| AppBot.ScanRejectsResetPartner | app.py:191-192 | get_all_users' int() raises ValueError on the 'None' a reset partner is stored as |
| AppBot.ScanWritePartner | app.py:191-192 | reading back a stored partner fails exactly for no partner and otherwise returns the partner |
| AppBot.LoadStored | app.py:98-119 | a stored row loads back to the record that was stored |
| AppBot.ReadRow | app.py:98-119 | get_user_data returns the stored record unchanged |
| AppBot.ScanRow | app.py:186-193 | get_all_users' row decoding fails exactly for a row with no partner and otherwise returns the record |
| AppBot.Overlay | app.py:122-143 | merging an update keeps every field the update leaves out, and a missing row starts from the defaults (1000 points, empty partner) |
| AppBot.OverlayPoints | app.py:122-143 | a points update changes only the points |
| AppBot.OverlayPreferredAge | app.py:122-143 | a preferred_age_group update changes only that field |
| AppBot.OverlayBind | app.py:456-459 | a pairing update sets in_conversation, the partner and is_initiator and leaves in_pool as it was |
| AppBot.BoundPairBySteps | app.py:456-459 | the two separate writes of a pairing produce the paired table |
| AppBot.BoundPairKeepsSymmetric | app.py:456-459 | pairing two free, distinct users keeps every partner link symmetric |
| AppBot.TransferredBySteps | app.py:606-618 | the debit write and the credit write together produce the transferred table |
| AppBot.TransferConserves | app.py:606-618 | the payer loses exactly the cost, the partner gains exactly the cost, and nobody else changes |
| AppBot.TransferKeepsNonNegative | app.py:606-618 | a debit the balance covers leaves no balance negative |
| AppBot.TransferKeepsSessions | app.py:606-618 | a transfer changes nobody's session |
| AppBot.SessionsKeptSymmetric | app.py:473-488 | a step that changes no session keeps the links symmetric |
| AppBot.EndKeepsSymmetric | app.py:473-488 | resetting a user and the partner it names keeps the links symmetric |
| AppBot.BindKeepsSymmetric | app.py:438-470 | linking two free users to each other keeps the links symmetric |
| AppBot.Without | app.py:146-158 | removing a row id keeps every other id and keeps the ids distinct |
| AppBot.Requeued | app.py:146-158 | INSERT OR REPLACE moves the row to the end of the scan order and keeps the ids distinct |
| AppBot.FirstMatchIsFirst | app.py:216-238 | the search returns None exactly when nobody qualifies, and otherwise the first user who qualifies |
| AppBot.FirstCandidate | app.py:226-238 | the scan loop returns the first qualifying user |
| AppBot.UsersTable.UpdateUserData | app.py:122-174 | only the named user's row changes, by the merge; the row moves to the end of the scan order |
| AppBot.UsersTable.GetAllUsers | app.py:177-199 | as written, it raises ValueError exactly when some user has no partner, and otherwise returns every user in order |
| AppBot.UsersTable.GetAllUsersFixed | app.py:177-199 | decoding through safe_int returns every user in order |
| AppBot.UsersTable.FindPartnerAsWritten | app.py:216-238 | as written, it raises for a seeker in the pool whenever any user has no partner |
| AppBot.UsersTable.FindPartner | app.py:216-238 | None outside the pool; otherwise None exactly when nobody qualifies, and otherwise the first user who is not the seeker, is in the pool, is not chatting, has a complete profile and matches the set preferences |
| AppBot.UsersTable.JoinPool | app.py:362-375 | an unknown user, an incomplete profile or a user already in the pool changes nothing; otherwise only in_pool becomes true |
| AppBot.UsersTable.LeavePool | app.py:378-388 | an unknown user or one not in the pool changes nothing; otherwise only in_pool becomes false |
| AppBot.UsersTable.HandleGenderPreference | app.py:417-425 | records the preferred gender and changes nobody else |
| AppBot.UsersTable.HandleAgePreference | app.py:438-470 | over the corrected get_all_users of "## Findings" (as written the search raises ValueError, so nobody is paired): records the age preference, then searches; a match binds seeker and partner symmetrically with the seeker as initiator; no match changes nothing more |
| AppBot.UsersTable.EndConversation | app.py:473-488 | outside a conversation nothing changes; otherwise the caller, and the partner it names, are reset, nobody else changes, and the links stay symmetric |
| AppBot.UsersTable.ReportUser | app.py:491-509 | without a partner nothing changes; otherwise both users are reset as by end_conversation |
| AppBot.UsersTable.Bind | app.py:456-459 | the two pairing writes in order |
| AppBot.UsersTable.Transfer | app.py:606-618 | the debit write, then the credit write |
| AppBot.UsersTable.HandleMessage | app.py:598-649 | a non-initiator pays nothing; an initiator short of the cost (text length, photo 150, video 250) changes nothing and forwards nothing; otherwise exactly the cost moves to the partner; symmetry and non-negative balances are kept |
| LomiBot.WithKey | lomi.py:74-80 | a new id is appended to the key order, a known id keeps its place, and the keys stay distinct |
| LomiBot.FirstMatchIsFirst | lomi.py:83-109 | the search returns None exactly when nobody qualifies, and otherwise the first qualifying user in dict order |
| LomiBot.SessionsKeptSymmetric | lomi.py:393-422 | a step that changes no session keeps the links symmetric |
| LomiBot.EndKeepsSymmetric | lomi.py:393-422 | resetting a user and the partner it names keeps the links symmetric |
| LomiBot.BindKeepsSymmetric | lomi.py:364-376 | linking two free users to each other keeps the links symmetric |
| LomiBot.BoundPairKeepsSymmetric | lomi.py:364-376 | pairing two free, distinct users keeps every partner link symmetric |
| LomiBot.TransferConserves | lomi.py:606-614 | the payer loses exactly the cost, the partner gains exactly the cost, and nobody else changes |
| LomiBot.TransferKeepsNonNegative | lomi.py:606-614 | a debit the balance covers leaves no balance negative |
| LomiBot.TransferKeepsSessions | lomi.py:606-614 | a transfer changes nobody's session |
| LomiBot.UserStore.constructor | lomi.py:60-65 | the store starts empty |
| LomiBot.UserStore.UpdateUserData | lomi.py:74-80 | an unknown id gets an empty dict first; only that user's dict changes, by dict.update |
| LomiBot.UserStore.FindPartner | lomi.py:83-109 | None outside the pool; otherwise None exactly when nobody qualifies, and otherwise the first qualifying user in dict order |
| LomiBot.UserStore.JoinPool | lomi.py:243-260 | an unknown user, an incomplete profile or a user already in the pool changes nothing; otherwise only in_pool becomes true |
| LomiBot.UserStore.LeavePool | lomi.py:263-275 | a user not in the pool changes nothing; otherwise only in_pool becomes false |
| LomiBot.UserStore.HandleGenderPreference | lomi.py:315-323 | records the preferred gender and changes nobody else |
| LomiBot.UserStore.HandleAgePreference | lomi.py:343-390 | records the age preference, then searches; a match binds seeker and partner symmetrically with the seeker as initiator |
| LomiBot.UserStore.EndConversation | lomi.py:393-422 | outside a conversation nothing changes; otherwise the caller, and the partner it names, are reset and the links stay symmetric |
| LomiBot.UserStore.ReportUser | lomi.py:425-460 | without a partner nothing changes; otherwise both users are reset |
| LomiBot.UserStore.HandleMessage | lomi.py:581-709 | a non-initiator pays nothing; an initiator short of the cost changes nothing; otherwise exactly the cost moves to the partner; symmetry and non-negative balances are kept |
| Db.AssignAllTakes | database.py:151-157 | every column the update names holds its new value |
| Db.AssignAllUntouched | database.py:151-157 | every column the update does not name keeps its value |
| Db.RowOfFinds | database.py:117-126 | get_user finds nothing exactly when no row has the telegram id, and otherwise finds such a row |
| Db.RowOfUpdate | database.py:151-162 | after an UPDATE a user is found as before, changed exactly when the statement selected it |
| Db.UpdateMissesAbsent | database.py:151-162 | an UPDATE by a telegram id no row has changes nothing, and update_user still reports success |
| Db.RowOfAppend | database.py:128-149 | a row inserted under a telegram id no row had is the one get_user then finds |
| Db.RowByIdUpdate | database.py:217-233 | the same, for a user found by internal id |
| Db.AddedPoints | database.py:302 | add_points changes the named user's balance by the amount and no other user |
| Db.InsertKeepsKeys | database.py:133-143 | inserting with the next key and a new telegram id keeps ids and telegram ids unique |
| Db.UpdateKeepsIds | database.py:151-162 | no UPDATE changes an id or a telegram id |
| Db.UpdateKeepsKeys | database.py:151-162 | no UPDATE breaks the table's keys |
| Db.InsertKeepsConversationKeys | database.py:177-181 | a new conversation keeps the conversation ids unique |
| Db.AppendKeepsLedgerKeys | database.py:235-243 | ledger rows appended with the counter's next ids keep the transaction ids unique and below the advanced counter |
| Db.TotalOfAdd | database.py:217-218 | adding to the rows with one id changes the total once per such row |
| Db.TotalOfClose | database.py:228-233 | closing a session changes no balance |
| Db.CountOfUnique | database.py:37-53 | with unique ids, a present id occurs exactly once |
| Db.AddOnceTotal | database.py:217-218 | adding to one present user changes the total by exactly that amount |
| Db.LedgerOfAppend | database.py:236-244 | the ledger total grows by the two amounts appended |
| Db.EngagedIsSymmetric | database.py:183-184 | start_conversation leaves both users busy and naming each other, and nobody else changes |
| Db.Settlement | database.py:214 | the settlement is the smaller of the character count and the client's balance |
| Db.SettledConserves | database.py:214-233 | settling moves points between the two users and creates or destroys none |
| Db.SettledClient | database.py:214-233 | the client loses the settlement and is never left negative; the client ends inactive, with no partner, one more conversation and the characters added |
| Db.SettledPartner | database.py:214-233 | the partner gains the settlement and ends inactive, with no partner, one more conversation and the characters added |
| Db.SettledFinds | database.py:217-233 | after settling, each row is still found by its id, changed by exactly the three UPDATEs that select it |
| Db.SettledKeepsKeys | database.py:217-233 | settling keeps user ids unique and below the next id |
| Db.FinishedFinds | database.py:221-225 | a stamped conversation is still found by its id with the same two users, so nothing stops end_conversation from settling it again |
| Db.DoubleSettlement | database.py:198-243 | two end_conversation settlements of one conversation move points twice: a client with 100 points and a partner with none end, after 10 characters, at 80 and 20 |
| Db.Finished | database.py:221-225 | stamping a conversation keeps every conversation id |
| Db.AvailableInExactly | database.py:254-278 | the query returns exactly the active users with no partner, other than the excluded one, that pass the sex and age filters |
| Db.Database.constructor | database.py:31-110 | the tables start empty |
| Db.Database.GetUserId | database.py:336-345 | an id exactly for a registered telegram id, and it is that user's positive internal id |
| Db.Database.CreateUser | database.py:128-149 | a taken telegram id or a NULL nickname changes nothing; otherwise one row is appended with the defaults |
| Db.Database.UpdateUser | database.py:151-162 | an empty update, an unknown column or a NULL nickname fails with no change; otherwise only the named columns of the selected row change |
| Db.Database.StartConversation | database.py:165-190 | an unregistered user on either side changes nothing; otherwise a conversation is added and both users are engaged to each other |
| Db.Database.EndConversation | database.py:192-251 | an unknown conversation or a missing user changes nothing; otherwise the clamped settlement, the stamped conversation, both users freed, and ledger rows of -t and +t |
| Db.Database.Settle | database.py:217-233 | the users table becomes `Settled` of the old one and keeps its keys |
| Db.Database.Log | database.py:235-243 | the ledger gains the given rows at its end, the counter advances by their number, and the ids stay unique |
| Db.Database.EndConversationOnce | database.py:198-209 | the corrected call refuses, changing nothing, a conversation whose ended_at is set; otherwise it settles as end_conversation does, and after a success the conversation is stamped as ended, so a second call is refused |
| Db.Database.FindAvailablePartners | database.py:254-278 | the loop returns exactly the available users, in table order |
| Db.Database.AddPoints | database.py:296-315 | an unknown user changes nothing; otherwise the balance changes by the amount, and one ledger row is added, of type 'deposit' exactly when the amount is positive and 'withdrawal' otherwise |
| MainBot.FindConversation | Main.py:262-275 | any id it returns belongs to an open conversation between the two ids given |
| MainBot.FindConversationFinds | Main.py:262-275 | it finds nothing exactly when no open conversation joins the two ids |
| MainBot.TelegramIdsMissConversation | Main.py:262-275 | as written, the lookup by telegram ids misses the open conversation of two paired users |
| MainBot.FindConversationOfUsers | Main.py:262-275 | the corrected lookup returns only an open conversation between the two users' internal ids |
| MainBot.StartedConversationIsFound | Main.py:262-275 | the corrected lookup finds, from either side, the conversation start_conversation has just opened |
| MainBot.Addressee | Main.py:105-130 | the message goes ahead only for a registered sender, not for a command, and only with a truthy partner who is registered |
| MainBot.ChargedClientOnly | Main.py:147-154 | a client pays the message length in points and gains it in characters, and nobody else changes, so the partner is credited nothing |
| MainBot.KnownConversation | Main.py:133 | the dict yields the user's conversation id when it holds a truthy one |
| MainBot.ChatManager.StartConversation | Main.py:277-282 | records the conversation with a zero character count under the user's key only |
| MainBot.ChatManager.ConversationFor | Main.py:133-141 | over the corrected find_conversation of "## Findings" (as written the lookup misses and the handler stops at "Conversation not found"): the dict's conversation or, failing that, the looked-up one, which is then recorded |
| MainBot.ChatManager.HandleMessage | Main.py:102-172 | over the corrected find_conversation of "## Findings": failed checks change nothing; a sender who is not a client is never debited; a client short of the length changes nothing and forwards nothing |
| MainBot.Bill | Main.py:144-157 | a client with enough points is charged and cleared; a client without them is refused with no change; any other sender is cleared without a charge |
| MainBot.Charge | Main.py:151-154 | a client's charge is the two UPDATEs, points lowered by the message length and then the character total raised by it, and the table keeps its keys |
| MainBot.JoinPool | Main.py:289-320 | an unregistered user, a user with a partner, or one missing sex or age group changes nothing; otherwise only the status becomes active |
| MainBot.JoinedIsAvailable | Main.py:289-320 | a user who joins with no partner is then available to any other seeker whose filters admit them |
| MainBot.FindPartnerAge | Main.py:354-413 | no candidates means no change; otherwise the chosen user is an available candidate and the two users are engaged in a new conversation |
| MainBot.AssignRoles | Main.py:394-395 | the role updates fail and change nothing |
| MainBot.PairedIsSymmetric | Main.py:388-395 | after pairing, seeker and partner are busy and name each other, and nobody else changes |
| MainBot.Leave | Main.py:615-617 | the caller becomes inactive with no partner |
| MainBot.LeftAlone | Main.py:615-617 | only the caller changes, so the partner still names the caller |
| MainBot.ChooseSex | Main.py:439-449 | an accepted answer is 'male' or 'female' |
| MainBot.ChooseSexAccepts | Main.py:439-449 | set_sex accepts exactly 'male' and 'female' in any mix of case |
| MainBot.RowByNicknameFinds | Main.py:496-502 | the nickname lookup finds nothing exactly when nobody holds the nickname, and otherwise finds the first holder |
| MainBot.ChooseNickname | Main.py:451-469 | an accepted nickname is the stripped answer with 1 to 20 characters; the length is refused exactly when it is outside 1 to 20 |
| MainBot.ChooseNicknameUnique | Main.py:451-469 | a nickname is refused as taken only when another user holds it; with unique nicknames, an accepted one is held by nobody but the caller |
| MainBot.ProfileUpdate | Main.py:479-486 | the profile update names six distinct known columns, and it sets a NULL nickname exactly when none was gathered |
| MainBot.SaveAgeGroup | Main.py:471-494 | an age group outside the four is refused with no change; otherwise the UPDATE goes to the caller's row, unless a NULL nickname makes it fail; a caller without a row, the only kind the dialogue admits, is left unregistered with nothing changed |
| MainBot.ProfileMissesNewcomer | Main.py:479-486 | the profile UPDATE of a caller with no row matches nothing: the table is unchanged and the caller is still not found |
| MainBot.SaveAgeGroupRegistering | Main.py:471-486 | corrected set_age_group: an accepted answer with a nickname leaves the caller's row carrying the profile, through create_user for a newcomer and the UPDATE otherwise; a refused answer changes nothing |
| MainBot.ProfileWritten | Main.py:479-486 | on a caller who already has a row (which the dialogue never admits), the profile sets the answers, 1000 points, zero characters and inactive, and changes nothing else |

## Left out

- Telegram I/O is not modelled: sending, replying, keyboards, file downloads, and the help and transact texts. "Forwarded" is an outcome value.
- FastAPI, Flask and webhook plumbing, uvicorn, threads, environment loading and logging are process setup and are left out.
- SQLite connections, schema creation and JSON file loading and saving are left out. Each store is modelled as its in-memory content. lomi.py's JSON file round trip is taken as faithful.
- The profile-setup dialogues are left out: `context.user_data` step flags, button_handler, and the profile branch of lomi.py handle_message (lomi.py:559-579). They are UI state with no invariant beyond the validators modelled here.
- Randomness is left out. `generate_nickname` becomes a parameter, and `random.choice` becomes "some element of the list" (`:|`).
- Concurrency is left out. The code has no locking, and each handler is one sequential step.
- The bodies of Main.py `end_conversation` and `debug_db` are left out (Main.py:178-260, 562-596). They sit at class scope with `await` outside any function, so the file cannot be compiled. Where handle_message calls end_conversation, the model changes nothing, which is what the two lines that remain in the method's body do.
- MainBot.FindPartnerAge: the calls to `self.start_conversation` and `self.get_chat_keyboard`, which MatchPool lacks, are not modelled. Only the database updates before them are. The handler stops there, so no conversation is recorded in a ChatManager.
- MainBot.ChatManager.HandleMessage takes the sender's role as a parameter. The users table has no role column, so `user_data.get('role')` is always None and the client branch is dead as written. The parameter states what would happen if the column existed.
- MainBot.ChatManager.HandleMessage: only messages with text are modelled. A photo or sticker has no text and would be forwarded as None.
- `log_message`, `create_report`, `close` and `test_database` only insert or tear down, with no behaviour to state.
- Text.Lower lowercases ASCII letters only. Python's `str.lower()` is full Unicode, but no non-ASCII character lowers into 'male', 'female' or 'none', so the accepted answers are the same.
- Db.Database.CreateUser: a `points` or `telegram_id` given as an explicit None is not modelled. Points are an integer or absent.
- Text.SafeInt: Python's `int()` also accepts surrounding whitespace (' 12', '12\n'), underscores between digits ('1_000') and non-ASCII decimal digits; the model reads these as ValueError. The partner column only ever holds `str(int)`, 'None' or '' (app.py:111-112, 134), so no stored value reaches that difference.
- Integer widths are not modelled. Python integers and SQLite INTEGER are treated as unbounded.

## Findings

| source | as written | input that shows it | evidently intended | confidence | as-written member | corrected member |
|---|---|---|---|---|---|---|
| app.py:191-192 | get_all_users decodes conversation_partner with `int()`. A reset partner is stored as the string 'None' (app.py:134), so decoding raises ValueError, which nothing catches. | Any user whose partner is None, such as one fresh from /start, while a seeker in the pool calls find_partner. | Decode through `safe_int`, as get_user_data does (app.py:111-112), so that every user is scanned. | high (not executed) | AppBot.UsersTable.GetAllUsers | AppBot.UsersTable.GetAllUsersFixed |
| Main.py:262-275 | find_conversation compares the telegram ids it receives with conversations.client_id and partner_id, which hold internal user ids (database.py:171-181). | Users with internal ids 1 and 2 and telegram ids 555 and 777 are paired in conversation 1. A message from 555 with an empty dict looks up (555, 777) and finds nothing. | Translate both telegram ids to internal ids before the query. | high (not executed) | MainBot.TelegramIdsMissConversation | MainBot.FindConversationOfUsers |
| database.py:198-209 | end_conversation selects the conversation by id alone and never reads ended_at, so a call on an ended conversation settles it again. | A client with 100 points and a partner with none, 10 characters: two calls leave them at 80 and 20 instead of 90 and 10. | Refuse a conversation whose ended_at is set, so that each conversation is settled once, as teardown in app.py and lomi.py changes nothing on a second call. | medium (not executed) | Db.DoubleSettlement | Db.Database.EndConversationOnce |
| Main.py:424-431, 479-486 | set_age_group only UPDATEs the caller's row, and start_profile_setup lets only callers without a row into the dialogue. /start is a plain command that drops the SEX state it returns (Main.py:604-605, 642), and nothing in Main.py calls create_user. | A new user sends /profile, answers Male, a free nickname and 25-30. The UPDATE matches no row, the bot says the profile was updated, and the user is still unregistered. | Register a caller without a row through create_user with the answers, and update a registered caller's row. | medium (not executed) | MainBot.ProfileMissesNewcomer | MainBot.SaveAgeGroupRegistering |
