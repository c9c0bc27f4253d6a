/** Main.py: the Telegram front end over the Database of database.py. ChatManager keeps the
    conversations it has seen in a dict, MatchPool puts users in the pool and pairs them, and
    UserManager validates the profile answers. Every database call is a call on `Db.Database`. */
module MainBot {
  import opened Common
  import opened Text
  import opened Db

  /** Python truthiness of an optional id: None and 0 are false. */
  predicate Truthy(p: Option<int>) {
    p.Some? && p.value != 0
  }

  // ---------------------------------------------------------------------------
  // find_conversation

  /** The pair of user ids a conversation joins, in either order, while it is still open. */
  predicate Joins(c: Conversation, x: int, y: int) {
    ((c.clientId == x && c.partnerId == y) || (c.clientId == y && c.partnerId == x)) && c.endedAt.None?
  }

  /** find_conversation (Main.py:262-275) as written: the first open conversation whose
      client_id and partner_id columns hold the two ids it is given. Its callers give it
      telegram ids, while those columns hold internal user ids. */
  function FindConversation(convs: seq<Conversation>, x: int, y: int): (r: Option<int>)
    ensures r.Some? ==> exists i :: 0 <= i < |convs| && convs[i].id == r.value && Joins(convs[i], x, y)
  {
    if convs == [] then None
    else if Joins(convs[0], x, y) then Some(convs[0].id)
    else
      var r := FindConversation(convs[1..], x, y);
      assert r.Some? ==> exists i :: 0 <= i < |convs[1..]| && convs[1..][i].id == r.value && Joins(convs[1..][i], x, y);
      assert forall i :: 0 <= i < |convs[1..]| ==> convs[1..][i] == convs[i + 1];
      r
  }

  /** The query finds nothing exactly when no open conversation joins the two ids. */
  lemma {:induction false} FindConversationFinds(convs: seq<Conversation>, x: int, y: int)
    ensures FindConversation(convs, x, y).None? <==> forall i :: 0 <= i < |convs| ==> !Joins(convs[i], x, y)
  {
    if convs != [] && !Joins(convs[0], x, y) {
      FindConversationFinds(convs[1..], x, y);
      assert forall i :: 1 <= i < |convs| ==> convs[i] == convs[1..][i - 1];
    }
  }

  /** The lookup find_conversation evidently means: the two telegram ids translated to the
      internal ids that conversations rows hold, then the same query. */
  function FindConversationOfUsers(convs: seq<Conversation>, users: seq<UserRow>, a: int, b: int): (r: Option<int>)
    ensures r.Some? ==> RowOf(users, a).Some? && RowOf(users, b).Some?
    ensures r.Some? ==> exists i :: (0 <= i < |convs| && convs[i].id == r.value
      && Joins(convs[i], RowOf(users, a).value.id, RowOf(users, b).value.id))
  {
    match (RowOf(users, a), RowOf(users, b))
    case (Some(x), Some(y)) => FindConversation(convs, x.id, y.id)
    case _ => None
  }

  /** The conversation start_conversation has just opened between two registered users is
      found by the corrected lookup, from either side. */
  lemma StartedConversationIsFound(convs: seq<Conversation>, users: seq<UserRow>, client: int, partner: int, n: int, now: string)
    requires RowOf(users, client).Some? && RowOf(users, partner).Some?
    ensures var c := Conversation(n, RowOf(users, client).value.id, RowOf(users, partner).value.id, now, None, 0, 0);
      && FindConversationOfUsers(convs + [c], Engaged(users, client, partner), client, partner).Some?
      && FindConversationOfUsers(convs + [c], Engaged(users, client, partner), partner, client).Some?
  {
    var c := Conversation(n, RowOf(users, client).value.id, RowOf(users, partner).value.id, now, None, 0, 0);
    var mid := UpdateRows(users, TelegramIs(client), Engage(partner));
    RowOfUpdate(users, TelegramIs(client), Engage(partner), client);
    RowOfUpdate(mid, TelegramIs(partner), Engage(client), client);
    RowOfUpdate(users, TelegramIs(client), Engage(partner), partner);
    RowOfUpdate(mid, TelegramIs(partner), Engage(client), partner);
    var all := convs + [c];
    assert all[|convs|] == c;
    FindConversationFinds(all, c.clientId, c.partnerId);
    FindConversationFinds(all, c.partnerId, c.clientId);
  }

  /** The users table and conversation of a client (telegram 555, user id 1) paired with a
      partner (telegram 777, user id 2). */
  function SampleUser(id: int, telegramId: int): UserRow {
    UserRow(id, telegramId, Some("N/A"), "nick", Some(""), Some("male"), Some("25-30"), 1000, Busy,
            Some(if telegramId == 555 then 777 else 555), 0, 0, "now")
  }

  /** As written, find_conversation misses the open conversation of two paired users: it
      looks for the telegram ids 555 and 777 in columns that hold 1 and 2. */
  lemma TelegramIdsMissConversation()
    ensures var users := [SampleUser(1, 555), SampleUser(2, 777)];
      var convs := [Conversation(1, 1, 2, "now", None, 0, 0)];
      && FindConversation(convs, 555, 777).None?
      && FindConversationOfUsers(convs, users, 555, 777) == Some(1)
  {
  }

  // ---------------------------------------------------------------------------
  // ChatManager.handle_message

  /** A command is left to the command handlers (Main.py:112-114). */
  predicate IsCommand(text: string) {
    |text| > 0 && text[0] == '/'
  }

  datatype ActiveConversation = ActiveConversation(conversationId: int, partnerId: int, charCount: int)

  datatype MessageOutcome =
    | NotRegistered
    | Command
    | NotChatting
    | PartnerMissing
    | ConversationMissing
    | InsufficientPoints
    | Forwarded(to: int)

  /** The checks handle_message makes before it looks for the conversation (Main.py:105-130):
      a registered sender, not a command, a truthy partner_id, and a registered partner.
      `Forwarded(p)` says that all pass and the message is for `p`. */
  function Addressee(users: seq<UserRow>, sender: int, text: string): (r: MessageOutcome)
    ensures r != ConversationMissing && r != InsufficientPoints
    ensures r == NotRegistered <==> RowOf(users, sender).None?
    ensures r.Forwarded? ==>
      && RowOf(users, sender).Some? && !IsCommand(text)
      && RowOf(users, sender).value.partnerId == Some(r.to) && r.to != 0
      && RowOf(users, r.to).Some?
  {
    match RowOf(users, sender)
    case None => NotRegistered
    case Some(row) =>
      if IsCommand(text) then Command
      else if !Truthy(row.partnerId) then NotChatting
      else if RowOf(users, row.partnerId.value).None? then PartnerMissing
      else Forwarded(row.partnerId.value)
  }

  /** The two UPDATEs that charge a client for a message of `n` characters
      (Main.py:150-154), both computed from the row read before the first. */
  function Charged(users: seq<UserRow>, sender: int, row: UserRow, n: int): seq<UserRow> {
    UpdateRows(UpdateRows(users, TelegramIs(sender), Columns([SetPoints(row.points - n)])),
               TelegramIs(sender), Columns([SetTotalChars(row.totalChars + n)]))
  }

  /** An update applies its first assignment, then the rest. */
  lemma AssignFirst(r: UserRow, a: Assignment, us: seq<Assignment>)
    ensures AssignAll(r, [a] + us) == AssignAll(Assign(r, a), us)
  {
    assert ([a] + us)[1..] == us;
  }

  /** The client pays `n` points and is credited `n` characters; the partner and every other
      user keep their rows, so nothing is paid to anyone. */
  lemma ChargedClientOnly(users: seq<UserRow>, sender: int, n: int, t: int)
    requires RowOf(users, sender).Some?
    ensures var row := RowOf(users, sender).value;
      var after := Charged(users, sender, row, n);
      && RowOf(after, sender) == Some(row.(points := row.points - n, totalChars := row.totalChars + n))
      && (t != sender ==> RowOf(after, t) == RowOf(users, t))
  {
    var row := RowOf(users, sender).value;
    var mid := UpdateRows(users, TelegramIs(sender), Columns([SetPoints(row.points - n)]));
    AssignFirst(row, SetPoints(row.points - n), []);
    AssignFirst(row.(points := row.points - n), SetTotalChars(row.totalChars + n), []);
    assert [SetPoints(row.points - n)] + [] == [SetPoints(row.points - n)];
    assert [SetTotalChars(row.totalChars + n)] + [] == [SetTotalChars(row.totalChars + n)];
    RowOfUpdate(users, TelegramIs(sender), Columns([SetPoints(row.points - n)]), sender);
    RowOfUpdate(mid, TelegramIs(sender), Columns([SetTotalChars(row.totalChars + n)]), sender);
    RowOfUpdate(users, TelegramIs(sender), Columns([SetPoints(row.points - n)]), t);
    RowOfUpdate(mid, TelegramIs(sender), Columns([SetTotalChars(row.totalChars + n)]), t);
  }

  /** The conversation id the dict holds for the user: `.get(uid, {}).get('conversation_id')`
      when truthy. */
  function KnownConversation(active: map<int, ActiveConversation>, user: int): (r: Option<int>)
    ensures r.Some? <==> user in active && active[user].conversationId != 0
    ensures r.Some? ==> r.value == active[user].conversationId
  {
    if user in active && active[user].conversationId != 0 then Some(active[user].conversationId) else None
  }

  class ChatManager {
    /** The conversations this manager has seen, by the user who sends in them. */
    var activeConversations: map<int, ActiveConversation>

    constructor ()
      ensures activeConversations == map[]
    {
      activeConversations := map[];
    }

    /** start_conversation (Main.py:277-282): records the conversation under the user's key
        only, with a zero character count. */
    method StartConversation(user: int, partner: int, conversationId: int)
      modifies this
      ensures activeConversations == old(activeConversations)[user := ActiveConversation(conversationId, partner, 0)]
      ensures user in activeConversations && activeConversations[user].charCount == 0
      ensures forall u :: u != user && u in old(activeConversations) ==> u in activeConversations && activeConversations[u] == old(activeConversations)[u]
    {
      activeConversations := activeConversations[user := ActiveConversation(conversationId, partner, 0)];
    }

    /** The conversation handle_message sends in (Main.py:133-141): the one the dict holds
        for the sender or, failing that, the one the lookup finds, which is then recorded. */
    method ConversationFor(db: Database, sender: int, partner: int) returns (c: Option<int>)
      modifies this
      ensures var known := KnownConversation(old(activeConversations), sender);
        var found := FindConversationOfUsers(db.conversations, db.users, sender, partner);
        && (known.Some? ==> c == known && activeConversations == old(activeConversations))
        && (known.None? && found.Some? ==>
              c == found && activeConversations == old(activeConversations)[sender := ActiveConversation(found.value, partner, 0)])
        && (known.None? && found.None? ==> c.None? && activeConversations == old(activeConversations))
    {
      c := KnownConversation(activeConversations, sender);
      if c.None? {
        c := FindConversationOfUsers(db.conversations, db.users, sender, partner);
        if c.Some? {
          StartConversation(sender, partner, c.value);
        }
      }
    }

    /** handle_message (Main.py:102-172). `role` is `user_data.get('role')`: the users table
        has no role column, so the handler reads None there. When the conversation is not in
        the dict the corrected lookup is used and, when it finds one, recorded. Only a 'client'
        pays: the message length, when the balance covers it; otherwise nothing changes and
        nothing is forwarded. The partner is never credited. */
    method HandleMessage(db: Database, sender: int, text: string, role: Option<string>) returns (o: MessageOutcome)
      requires db.Valid()
      modifies this, db`users
      ensures db.Valid()
      ensures var a := Addressee(old(db.users), sender, text);
        !a.Forwarded? ==> o == a && db.users == old(db.users) && activeConversations == old(activeConversations)
      ensures var a := Addressee(old(db.users), sender, text);
        a.Forwarded? ==>
          var known := KnownConversation(old(activeConversations), sender);
          var found := FindConversationOfUsers(db.conversations, old(db.users), sender, a.to);
          && (known.Some? ==> activeConversations == old(activeConversations))
          && (known.None? && found.Some? ==>
                activeConversations == old(activeConversations)[sender := ActiveConversation(found.value, a.to, 0)])
          && (known.None? && found.None? ==>
                o == ConversationMissing && db.users == old(db.users) && activeConversations == old(activeConversations))
          && (known.Some? || found.Some? ==>
                var row := RowOf(old(db.users), sender).value;
                if role != Some("client") || row.points >= |text| then o == a && db.users == Billed(old(db.users), sender, row, |text|, role)
                else o == InsufficientPoints && db.users == old(db.users))
      ensures role != Some("client") ==> db.users == old(db.users)
    {
      var a := Addressee(db.users, sender, text);
      if !a.Forwarded? {
        return a;
      }
      var row := db.GetUser(sender).value;
      var c := ConversationFor(db, sender, a.to);
      if c.None? {
        return ConversationMissing;
      }
      var cleared := Bill(db, sender, row, text, role);
      if !cleared {
        return InsufficientPoints;
      }
      return a;
    }
  }

  /** The users table after a cleared message: charged when the sender is a client. */
  function Billed(users: seq<UserRow>, sender: int, row: UserRow, n: int, role: Option<string>): seq<UserRow> {
    if role == Some("client") then Charged(users, sender, row, n) else users
  }

  /** The two UPDATEs that charge a client for a message of `n` characters (Main.py:151-154). */
  method Charge(db: Database, sender: int, row: UserRow, n: int)
    requires db.Valid()
    modifies db`users
    ensures db.Valid()
    ensures db.users == Charged(old(db.users), sender, row, n)
  {
    var debit, count := [SetPoints(row.points - n)], [SetTotalChars(row.totalChars + n)];
    assert debit[0].SetPoints? && count[0].SetTotalChars?;
    var debited := db.UpdateUser(sender, debit);
    assert debited;
    var counted := db.UpdateUser(sender, count);
    assert counted;
  }

  /** The client charge of handle_message (Main.py:144-157), from the row read at the start:
      a client whose balance covers the message is charged and cleared, a client whose
      balance does not is refused with nothing changed, and any other sender is cleared
      without a charge. */
  method Bill(db: Database, sender: int, row: UserRow, text: string, role: Option<string>) returns (cleared: bool)
    requires db.Valid()
    modifies db`users
    ensures db.Valid()
    ensures cleared <==> role != Some("client") || row.points >= |text|
    ensures cleared ==> db.users == Billed(old(db.users), sender, row, |text|, role)
    ensures !cleared ==> db.users == old(db.users)
  {
    if role == Some("client") {
      var n := |text|;
      if row.points >= n {
        Charge(db, sender, row, n);
      } else {
        return false;
      }
    }
    return true;
  }

  // ---------------------------------------------------------------------------
  // MatchPool.join_pool, find_partner_age and leave

  datatype JoinOutcome = Unregistered | Chatting | Incomplete | Joined

  /** join_pool (Main.py:289-320): a registered user without a partner and with sex and age
      group filled in becomes active; any other caller changes nothing. */
  method JoinPool(db: Database, user: int) returns (o: JoinOutcome)
    requires db.Valid()
    modifies db`users
    ensures db.Valid()
    ensures var row := RowOf(old(db.users), user);
      && (o == Unregistered <==> row.None?)
      && (o == Chatting <==> row.Some? && Truthy(row.value.partnerId))
      && (o == Incomplete <==> row.Some? && !Truthy(row.value.partnerId) && !(IsSet(row.value.sex) && IsSet(row.value.ageGroup)))
    ensures o != Joined ==> db.users == old(db.users)
    ensures o == Joined ==> db.users == UpdateRows(old(db.users), TelegramIs(user), Columns([SetStatus(Active)]))
  {
    var row := db.GetUser(user);
    if row.None? {
      return Unregistered;
    }
    if Truthy(row.value.partnerId) {
      return Chatting;
    }
    if !IsSet(row.value.sex) || !IsSet(row.value.ageGroup) {
      return Incomplete;
    }
    var _ := db.UpdateUser(user, [SetStatus(Active)]);
    return Joined;
  }

  /** A user who joins without any partner set is then offered to every other seeker whose
      filters do not exclude them. */
  lemma JoinedIsAvailable(users: seq<UserRow>, user: int, seeker: int, sex: Option<string>, ageGroup: Option<string>)
    requires RowOf(users, user).Some? && RowOf(users, user).value.partnerId.None? && seeker != user
    requires IsSet(sex) && sex.value != "Any" ==> RowOf(users, user).value.sex == Some(Lower(sex.value))
    requires IsSet(ageGroup) && ageGroup.value != "Any" ==> RowOf(users, user).value.ageGroup == ageGroup
    ensures var after := UpdateRows(users, TelegramIs(user), Columns([SetStatus(Active)]));
      RowOf(after, user).Some? && Available(RowOf(after, user).value, seeker, sex, ageGroup)
  {
    RowOfUpdate(users, TelegramIs(user), Columns([SetStatus(Active)]), user);
  }

  datatype FindOutcome = NoPartners | StartFailed | Paired(partner: int, conversation: int)

  /** find_partner_age (Main.py:354-413): the seeker's filters are the chosen sex ('Any' when
      none was chosen) and age group. With no available user nothing changes. Otherwise some
      available user is chosen and start_conversation binds the two. The two role UPDATEs
      that follow name a column the table lacks and change nothing, and the handler then
      stops at the call of a start_conversation that MatchPool does not have, so no
      ChatManager records the conversation. */
  method FindPartnerAge(db: Database, seeker: int, findSex: Option<string>, agePref: string, now: string) returns (o: FindOutcome)
    requires db.Valid()
    modifies db`users, db`conversations, db`nextConversationId
    ensures db.Valid()
    ensures var sex := Some(findSex.GetOr("Any"));
      o == NoPartners <==> AvailableIn(old(db.users), seeker, sex, Some(agePref)) == []
    ensures o == NoPartners || o == StartFailed ==>
      db.users == old(db.users) && db.conversations == old(db.conversations) && db.nextConversationId == old(db.nextConversationId)
    ensures o.Paired? ==>
      var sex := Some(findSex.GetOr("Any"));
      && RowOf(old(db.users), seeker).Some?
      && (exists r :: r in old(db.users) && r.telegramId == o.partner && Available(r, seeker, sex, Some(agePref)))
      && RowOf(old(db.users), o.partner).Some?
      && o.conversation == old(db.nextConversationId)
      && db.conversations == old(db.conversations) + [Conversation(o.conversation, RowOf(old(db.users), seeker).value.id,
           RowOf(old(db.users), o.partner).value.id, now, None, 0, 0)]
      && db.users == Engaged(old(db.users), seeker, o.partner)
  {
    var sex := Some(findSex.GetOr("Any"));
    var available := db.FindAvailablePartners(seeker, sex, Some(agePref));
    if available == [] {
      return NoPartners;
    }
    assert available[0] in available;
    var partner :| partner in available;
    assert partner in db.users && Available(partner, seeker, sex, Some(agePref));
    RowOfFinds(db.users, partner.telegramId);
    var conversation := db.StartConversation(seeker, partner.telegramId, now);
    if conversation.None? {
      return StartFailed;
    }
    AssignRoles(db, seeker, partner.telegramId);
    return Paired(partner.telegramId, conversation.value);
  }

  /** The two role UPDATEs of find_partner_age (Main.py:394-395) name a column the users
      table does not have, so both fail and leave the table as it was. */
  method AssignRoles(db: Database, seeker: int, partner: int)
    requires db.Valid()
    modifies db`users
    ensures db.Valid()
    ensures db.users == old(db.users)
  {
    var client := [SetRole("client"), SetPartner(Some(partner)), SetStatus(Inactive)];
    assert client[0].SetRole? && ColumnOf(client[1]) == 6 && ColumnOf(client[2]) == 5;
    var ok := db.UpdateUser(seeker, client);
    assert !ok;
    var responder := [SetRole("partner"), SetPartner(Some(seeker)), SetStatus(Inactive)];
    assert responder[0].SetRole? && ColumnOf(responder[1]) == 6 && ColumnOf(responder[2]) == 5;
    ok := db.UpdateUser(partner, responder);
  }

  /** After a pairing the seeker and the chosen user are busy and name each other, and
      nobody else changes. */
  lemma PairedIsSymmetric(users: seq<UserRow>, seeker: int, partner: int, t: int)
    requires RowOf(users, seeker).Some? && RowOf(users, partner).Some? && partner != seeker
    ensures var after := Engaged(users, seeker, partner);
      && RowOf(after, seeker).Some? && RowOf(after, partner).Some?
      && RowOf(after, seeker).value.partnerId == Some(partner) && RowOf(after, partner).value.partnerId == Some(seeker)
      && RowOf(after, seeker).value.status == Busy && RowOf(after, partner).value.status == Busy
      && (t != seeker && t != partner ==> RowOf(after, t) == RowOf(users, t))
  {
    EngagedIsSymmetric(users, seeker, partner, t);
  }

  /** leave (Main.py:615-617): the caller becomes inactive with no partner. */
  method Leave(db: Database, user: int)
    requires db.Valid()
    modifies db`users
    ensures db.Valid()
    ensures db.users == UpdateRows(old(db.users), TelegramIs(user), Columns([SetStatus(Inactive), SetPartner(None)]))
  {
    var _ := db.UpdateUser(user, [SetStatus(Inactive), SetPartner(None)]);
  }

  /** leave frees the caller only: the partner keeps naming the caller. */
  lemma LeftAlone(users: seq<UserRow>, user: int, t: int)
    requires RowOf(users, user).Some?
    ensures var after := UpdateRows(users, TelegramIs(user), Columns([SetStatus(Inactive), SetPartner(None)]));
      && RowOf(after, user) == Some(RowOf(users, user).value.(status := Inactive, partnerId := None))
      && (t != user ==> RowOf(after, t) == RowOf(users, t))
  {
    RowOfUpdate(users, TelegramIs(user), Columns([SetStatus(Inactive), SetPartner(None)]), user);
    RowOfUpdate(users, TelegramIs(user), Columns([SetStatus(Inactive), SetPartner(None)]), t);
  }

  // ---------------------------------------------------------------------------
  // UserManager's profile answers

  /** set_sex (Main.py:439-449): the lower-cased answer when it is 'male' or 'female'. */
  function ChooseSex(text: string): (r: Option<string>)
    ensures r.Some? ==> r.value == "male" || r.value == "female"
  {
    var s := Lower(text);
    if s == "male" || s == "female" then Some(s) else None
  }

  /** set_sex accepts exactly the two words in any mix of case. */
  lemma ChooseSexAccepts(text: string)
    ensures ChooseSex(text) == Some("male") <==> EqualsIgnoringCase(text, "male")
    ensures ChooseSex(text) == Some("female") <==> EqualsIgnoringCase(text, "female")
    ensures ChooseSex(text).None? <==> !EqualsIgnoringCase(text, "male") && !EqualsIgnoringCase(text, "female")
  {
    LowerEquals(text, "male");
    LowerEquals(text, "female");
  }

  /** get_user_by_nickname (Main.py:496-502): the first row with that nickname. */
  function RowByNickname(users: seq<UserRow>, nickname: string): (r: Option<UserRow>)
    ensures r.Some? ==> r.value.nickname == nickname
  {
    if users == [] then None
    else if users[0].nickname == nickname then Some(users[0])
    else RowByNickname(users[1..], nickname)
  }

  /** The lookup finds nothing exactly when nobody holds the nickname, and otherwise finds
      the first holder. */
  lemma {:induction false} RowByNicknameFinds(users: seq<UserRow>, nickname: string)
    ensures RowByNickname(users, nickname).None? <==> forall i :: 0 <= i < |users| ==> users[i].nickname != nickname
    ensures RowByNickname(users, nickname).Some? ==> exists i :: (0 <= i < |users| && users[i] == RowByNickname(users, nickname).value
      && forall j :: 0 <= j < i ==> users[j].nickname != nickname)
  {
    if users != [] && users[0].nickname != nickname {
      RowByNicknameFinds(users[1..], nickname);
      assert forall i :: 1 <= i < |users| ==> users[i] == users[1..][i - 1];
      if RowByNickname(users, nickname).Some? {
        var i :| 0 <= i < |users[1..]| && users[1..][i] == RowByNickname(users, nickname).value
          && forall j :: 0 <= j < i ==> users[1..][j].nickname != nickname;
        assert users[i + 1] == users[1..][i];
        assert forall j :: 1 <= j < i + 1 ==> users[j] == users[1..][j - 1];
      }
    } else if users != [] {
      assert users[0] == RowByNickname(users, nickname).value;
    }
  }

  datatype NicknameOutcome = BadLength | Taken | Accepted(nickname: string)

  /** set_nickname (Main.py:451-469): the stripped answer, when it has 1 to 20 characters and
      the first user holding it, if any, is the caller. */
  function ChooseNickname(users: seq<UserRow>, caller: int, text: string): (r: NicknameOutcome)
    ensures r.Accepted? ==> r.nickname == Strip(text) && 1 <= |r.nickname| <= 20
    ensures r == BadLength <==> |Strip(text)| == 0 || |Strip(text)| > 20
  {
    var nickname := Strip(text);
    if |nickname| == 0 || |nickname| > 20 then BadLength
    else
      match RowByNickname(users, nickname)
      case Some(holder) => if holder.telegramId != caller then Taken else Accepted(nickname)
      case None => Accepted(nickname)
  }

  predicate UniqueNicknames(users: seq<UserRow>) {
    forall i, j :: 0 <= i < j < |users| ==> users[i].nickname != users[j].nickname
  }

  /** A nickname is refused as taken only when another user holds it; while nicknames are
      unique, an accepted one is held by nobody but the caller. */
  lemma ChooseNicknameUnique(users: seq<UserRow>, caller: int, text: string)
    ensures ChooseNickname(users, caller, text) == Taken ==>
      exists i :: 0 <= i < |users| && users[i].nickname == Strip(text) && users[i].telegramId != caller
    ensures ChooseNickname(users, caller, text).Accepted? && UniqueNicknames(users) ==>
      forall i :: 0 <= i < |users| && users[i].nickname == Strip(text) ==> users[i].telegramId == caller
  {
    RowByNicknameFinds(users, Strip(text));
  }

  /** set_age_group (Main.py:471-475): one of the four age groups. */
  predicate ValidAgeGroup(text: string) {
    text == "18-24" || text == "25-30" || text == "31-45" || text == "45+"
  }

  /** The profile set_age_group writes (Main.py:479-486). */
  function ProfileUpdate(sex: Option<string>, nickname: Option<string>, ageGroup: string): (us: seq<Assignment>)
    ensures DistinctColumns(us) && !UnknownColumn(us) && |us| == 6
    ensures NullNickname(us) <==> nickname.None?
  {
    var us := [SetSex(sex), SetNickname(nickname), SetAgeGroup(Some(ageGroup)), SetPoints(1000), SetTotalChars(0), SetStatus(Inactive)];
    assert forall i :: 0 <= i < |us| ==> ColumnOf(us[i]) == i;
    assert forall i :: 0 <= i < |us| && us[i] == SetNickname(None) ==> i == 1;
    assert us[1] == SetNickname(nickname);
    us
  }

  /** set_age_group (Main.py:471-494): an age group outside the list is refused; otherwise an
      UPDATE writes the sex and nickname gathered before, which may be None, to the caller's
      row. The write lands only on a caller who already has a row, and the dialogue admits only
      callers without one (Main.py:424-431): for them the UPDATE matches nothing
      (`ProfileMissesNewcomer`). A None nickname makes the UPDATE fail for a registered caller
      and nothing changes. */
  method SaveAgeGroup(db: Database, user: int, text: string, sex: Option<string>, nickname: Option<string>) returns (accepted: bool)
    requires db.Valid()
    modifies db`users
    ensures db.Valid()
    ensures accepted <==> ValidAgeGroup(text)
    ensures !accepted || (RowOf(old(db.users), user).Some? && nickname.None?) ==> db.users == old(db.users)
    ensures accepted && !(RowOf(old(db.users), user).Some? && nickname.None?) ==>
      db.users == UpdateRows(old(db.users), TelegramIs(user), Columns(ProfileUpdate(sex, nickname, text)))
    ensures RowOf(old(db.users), user).None? ==> db.users == old(db.users)
  {
    if !ValidAgeGroup(text) {
      return false;
    }
    ghost var before := db.users;
    var _ := db.UpdateUser(user, ProfileUpdate(sex, nickname, text));
    if RowOf(before, user).None? {
      ProfileMissesNewcomer(before, user, sex, nickname, text);
    }
    return true;
  }

  /** The profile UPDATE of a caller without a row matches nothing: the answers of a
      newcomer, the only caller the dialogue admits, are lost. */
  lemma ProfileMissesNewcomer(users: seq<UserRow>, user: int, sex: Option<string>, nickname: Option<string>, ageGroup: string)
    requires RowOf(users, user).None?
    ensures RowOf(UpdateRows(users, TelegramIs(user), Columns(ProfileUpdate(sex, nickname, ageGroup))), user).None?
    ensures UpdateRows(users, TelegramIs(user), Columns(ProfileUpdate(sex, nickname, ageGroup))) == users
  {
    UpdateMissesAbsent(users, user, Columns(ProfileUpdate(sex, nickname, ageGroup)));
  }

  /** A row carrying the answers of a completed profile. */
  predicate Profiled(r: UserRow, sex: Option<string>, nickname: string, ageGroup: string) {
    r.sex == sex && r.nickname == nickname && r.ageGroup == Some(ageGroup)
    && r.points == 1000 && r.totalChars == 0 && r.status == Inactive
  }

  /** set_age_group as evidently intended: a caller without a row is registered with the
      answers through create_user, and a registered caller's row is updated as before. Either
      way an accepted answer with a nickname leaves the caller's row carrying the profile. */
  method SaveAgeGroupRegistering(db: Database, user: int, text: string, sex: Option<string>, nickname: Option<string>,
                                 generated: string, now: string) returns (accepted: bool)
    requires db.Valid()
    modifies db`users, db`nextUserId
    ensures db.Valid()
    ensures accepted <==> ValidAgeGroup(text)
    ensures !accepted ==> db.users == old(db.users)
    ensures accepted && nickname.Some? ==>
      RowOf(db.users, user).Some? && Profiled(RowOf(db.users, user).value, sex, nickname.value, text)
  {
    if !ValidAgeGroup(text) {
      return false;
    }
    ghost var before := db.users;
    if db.GetUser(user).None? {
      var _ := db.CreateUser(user, None, Some(nickname), None, Some(sex), Some(Some(text)), None, generated, now);
      if nickname.Some? {
        RowOfAppend(before, NewUser(old(db.nextUserId), user, None, Flatten(Some(nickname)), None, Some(sex), Some(Some(text)), None, generated, now));
      }
    } else {
      var _ := db.UpdateUser(user, ProfileUpdate(sex, nickname, text));
      if nickname.Some? {
        ProfileWritten(before, user, sex, nickname.value, text, user);
      }
    }
    return true;
  }

  /** A completed profile: the answers, 1000 points, no characters and inactive, with every
      other column as it was. */
  lemma ProfileWritten(users: seq<UserRow>, user: int, sex: Option<string>, nickname: string, ageGroup: string, t: int)
    requires RowOf(users, user).Some?
    ensures var after := UpdateRows(users, TelegramIs(user), Columns(ProfileUpdate(sex, Some(nickname), ageGroup)));
      && RowOf(after, user) == Some(RowOf(users, user).value.(sex := sex, nickname := nickname, ageGroup := Some(ageGroup),
           points := 1000, totalChars := 0, status := Inactive))
      && (t != user ==> RowOf(after, t) == RowOf(users, t))
  {
    var us := ProfileUpdate(sex, Some(nickname), ageGroup);
    var r := RowOf(users, user).value;
    var r1 := r.(sex := sex);
    var r2 := r1.(nickname := nickname);
    var r3 := r2.(ageGroup := Some(ageGroup));
    var r4 := r3.(points := 1000);
    var r5 := r4.(totalChars := 0);
    AssignFirst(r, SetSex(sex), us[1..]);
    AssignFirst(r1, SetNickname(Some(nickname)), us[2..]);
    AssignFirst(r2, SetAgeGroup(Some(ageGroup)), us[3..]);
    AssignFirst(r3, SetPoints(1000), us[4..]);
    AssignFirst(r4, SetTotalChars(0), us[5..]);
    AssignFirst(r5, SetStatus(Inactive), []);
    assert us == [SetSex(sex)] + us[1..] && us[1..] == [SetNickname(Some(nickname))] + us[2..];
    assert us[2..] == [SetAgeGroup(Some(ageGroup))] + us[3..] && us[3..] == [SetPoints(1000)] + us[4..];
    assert us[4..] == [SetTotalChars(0)] + us[5..] && us[5..] == [SetStatus(Inactive)] + [];
    RowOfUpdate(users, TelegramIs(user), Columns(us), user);
    RowOfUpdate(users, TelegramIs(user), Columns(us), t);
  }
}
