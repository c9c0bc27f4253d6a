/** database.py: the SQLite store behind Main.py. Each table is a sequence of rows in rowid
    order, and each AUTOINCREMENT key is a counter. An UPDATE ... WHERE statement is a
    function that rewrites exactly the rows its WHERE clause selects. */
module Db {
  import opened Common
  import opened Text

  /** The users.status values the code writes. */
  datatype Status = Active | Busy | Inactive

  /** A users row (database.py:37-53). `partnerId` holds the partner's telegram id. */
  datatype UserRow = UserRow(
    id: int,
    telegramId: int,
    username: Option<string>,
    nickname: string,
    fullName: Option<string>,
    sex: Option<string>,
    ageGroup: Option<string>,
    points: int,
    status: Status,
    partnerId: Option<int>,
    conversationCount: int,
    totalChars: int,
    createdAt: string)

  /** A conversations row (database.py:56-66). The client and the partner are internal user ids. */
  datatype Conversation = Conversation(
    id: int,
    clientId: int,
    partnerId: int,
    startedAt: string,
    endedAt: Option<string>,
    clientCharCount: int,
    pointsTransferred: int)

  /** A transactions row (database.py:81-91). */
  datatype Transaction = Transaction(
    id: int,
    userId: int,
    amount: int,
    kind: string,
    description: string,
    adminId: Option<int>,
    createdAt: string)

  // ---------------------------------------------------------------------------
  // update_user's column assignments

  /** One `key: value` pair of the dict update_user receives. `SetRole` names a column that
      the users table does not have. */
  datatype Assignment =
    | SetSex(sex: Option<string>)
    | SetNickname(nickname: Option<string>)
    | SetAgeGroup(ageGroup: Option<string>)
    | SetPoints(points: int)
    | SetTotalChars(totalChars: int)
    | SetStatus(status: Status)
    | SetPartner(partner: Option<int>)
    | SetRole(role: string)

  /** The column an assignment names; a dict names each column at most once. */
  function ColumnOf(a: Assignment): nat {
    match a
    case SetSex(_) => 0
    case SetNickname(_) => 1
    case SetAgeGroup(_) => 2
    case SetPoints(_) => 3
    case SetTotalChars(_) => 4
    case SetStatus(_) => 5
    case SetPartner(_) => 6
    case SetRole(_) => 7
  }

  predicate DistinctColumns(us: seq<Assignment>) {
    forall i, j :: 0 <= i < j < |us| ==> ColumnOf(us[i]) != ColumnOf(us[j])
  }

  /** `role` is not a column of users: the statement fails to prepare. */
  predicate UnknownColumn(us: seq<Assignment>) {
    exists i :: 0 <= i < |us| && us[i].SetRole?
  }

  /** users.nickname is NOT NULL: setting it to None fails on any row the statement reaches. */
  predicate NullNickname(us: seq<Assignment>) {
    exists i :: 0 <= i < |us| && us[i] == SetNickname(None)
  }

  /** The value column `c` holds in both rows. */
  predicate SameColumn(x: UserRow, y: UserRow, c: nat) {
    match c
    case 0 => x.sex == y.sex
    case 1 => x.nickname == y.nickname
    case 2 => x.ageGroup == y.ageGroup
    case 3 => x.points == y.points
    case 4 => x.totalChars == y.totalChars
    case 5 => x.status == y.status
    case 6 => x.partnerId == y.partnerId
    case _ => true
  }

  /** One `key = ?` of the SET clause. The failing assignments never reach a row. */
  function Assign(r: UserRow, a: Assignment): UserRow {
    match a
    case SetSex(s) => r.(sex := s)
    case SetNickname(n) => if n.Some? then r.(nickname := n.value) else r
    case SetAgeGroup(g) => r.(ageGroup := g)
    case SetPoints(p) => r.(points := p)
    case SetTotalChars(t) => r.(totalChars := t)
    case SetStatus(s) => r.(status := s)
    case SetPartner(p) => r.(partnerId := p)
    case SetRole(_) => r
  }

  function AssignAll(r: UserRow, us: seq<Assignment>): (r': UserRow)
    ensures r'.id == r.id && r'.telegramId == r.telegramId
    decreases us
  {
    if us == [] then r else AssignAll(Assign(r, us[0]), us[1..])
  }

  /** Every column the update names holds its new value afterwards. */
  lemma {:induction false} AssignAllTakes(r: UserRow, us: seq<Assignment>, i: nat)
    requires DistinctColumns(us) && i < |us|
    ensures Assign(AssignAll(r, us), us[i]) == AssignAll(r, us)
    decreases us
  {
    if i == 0 {
      AssignAllUntouched(Assign(r, us[0]), us[1..], ColumnOf(us[0]));
    } else {
      AssignAllTakes(Assign(r, us[0]), us[1..], i - 1);
    }
  }

  /** A column the update does not name keeps its value. */
  lemma {:induction false} AssignAllUntouched(r: UserRow, us: seq<Assignment>, c: nat)
    requires forall i :: 0 <= i < |us| ==> ColumnOf(us[i]) != c
    ensures SameColumn(AssignAll(r, us), r, c)
    decreases us
  {
    if us != [] {
      AssignAllUntouched(Assign(r, us[0]), us[1..], c);
    }
  }

  // ---------------------------------------------------------------------------
  // UPDATE users SET ... WHERE ...

  /** The row changes the methods make. */
  datatype Change =
    | Columns(updates: seq<Assignment>)
    | Engage(partner: int)
    | AddToPoints(delta: int)
    | Close(charCount: int)

  function Apply(r: UserRow, c: Change): (r': UserRow)
    ensures r'.id == r.id && r'.telegramId == r.telegramId
  {
    match c
    case Columns(us) => AssignAll(r, us)
    case Engage(p) => r.(status := Busy, partnerId := Some(p))
    case AddToPoints(d) => r.(points := r.points + d)
    case Close(n) =>
      r.(status := Inactive, partnerId := None, conversationCount := r.conversationCount + 1,
         totalChars := r.totalChars + n)
  }

  /** The WHERE clauses the methods use. */
  datatype Where = TelegramIs(telegramId: int) | IdIs(id: int) | IdIn(first: int, second: int)

  predicate Selects(w: Where, r: UserRow) {
    match w
    case TelegramIs(t) => r.telegramId == t
    case IdIs(i) => r.id == i
    case IdIn(a, b) => r.id == a || r.id == b
  }

  /** The table after the statement: each selected row changed once, the others as they were. */
  function UpdateRows(rows: seq<UserRow>, w: Where, c: Change): (r: seq<UserRow>)
    ensures |r| == |rows|
  {
    if rows == [] then []
    else [if Selects(w, rows[0]) then Apply(rows[0], c) else rows[0]] + UpdateRows(rows[1..], w, c)
  }

  // ---------------------------------------------------------------------------
  // SELECT

  /** `SELECT * FROM users WHERE telegram_id = ?`, fetchone. */
  function RowOf(rows: seq<UserRow>, telegramId: int): (r: Option<UserRow>)
    ensures r.Some? ==> r.value.telegramId == telegramId
  {
    if rows == [] then None
    else if rows[0].telegramId == telegramId then Some(rows[0])
    else RowOf(rows[1..], telegramId)
  }

  /** The lookup finds a row exactly when one has the telegram id, and what it finds is
      such a row of the table. */
  lemma {:induction false} RowOfFinds(rows: seq<UserRow>, t: int)
    ensures RowOf(rows, t).None? <==> forall i :: 0 <= i < |rows| ==> rows[i].telegramId != t
    ensures RowOf(rows, t).Some? ==> exists i :: 0 <= i < |rows| && rows[i] == RowOf(rows, t).value && rows[i].telegramId == t
  {
    if rows != [] && rows[0].telegramId != t {
      RowOfFinds(rows[1..], t);
      assert forall i :: 1 <= i < |rows| ==> rows[i] == rows[1..][i - 1];
      if RowOf(rows, t).Some? {
        var i :| 0 <= i < |rows[1..]| && rows[1..][i] == RowOf(rows, t).value && rows[1..][i].telegramId == t;
        assert rows[i + 1] == rows[1..][i];
      }
    }
  }

  /** An UPDATE by a telegram id that no row has matches nothing and changes nothing. */
  lemma {:induction false} UpdateMissesAbsent(rows: seq<UserRow>, t: int, c: Change)
    requires RowOf(rows, t).None?
    ensures UpdateRows(rows, TelegramIs(t), c) == rows
  {
    if rows != [] {
      UpdateMissesAbsent(rows[1..], t, c);
      assert rows == [rows[0]] + rows[1..];
    }
  }

  /** A row appended under a telegram id no row had is the one get_user then finds. */
  lemma {:induction false} RowOfAppend(rows: seq<UserRow>, x: UserRow)
    requires RowOf(rows, x.telegramId).None?
    ensures RowOf(rows + [x], x.telegramId) == Some(x)
  {
    if rows != [] {
      assert (rows + [x])[1..] == rows[1..] + [x];
      RowOfAppend(rows[1..], x);
    }
  }

  /** The row with the given internal id, as the JOINs of end_conversation find it. */
  function RowById(rows: seq<UserRow>, id: int): (r: Option<UserRow>)
    ensures r.Some? ==> r.value.id == id
  {
    if rows == [] then None
    else if rows[0].id == id then Some(rows[0])
    else RowById(rows[1..], id)
  }

  /** The conversation with the given id. */
  function ConversationOf(convs: seq<Conversation>, id: int): (r: Option<Conversation>)
    ensures r.Some? ==> r.value.id == id
  {
    if convs == [] then None
    else if convs[0].id == id then Some(convs[0])
    else ConversationOf(convs[1..], id)
  }

  /** After an update, a row is found by its telegram id exactly as before, changed when the
      statement selected it. */
  lemma {:induction false} RowOfUpdate(rows: seq<UserRow>, w: Where, c: Change, t: int)
    ensures RowOf(rows, t).None? ==> RowOf(UpdateRows(rows, w, c), t).None?
    ensures RowOf(rows, t).Some? ==>
      var r := RowOf(rows, t).value;
      RowOf(UpdateRows(rows, w, c), t) == Some(if Selects(w, r) then Apply(r, c) else r)
  {
    if rows != [] && rows[0].telegramId != t {
      RowOfUpdate(rows[1..], w, c, t);
    }
  }

  /** add_points changes the balance of the user it names by the amount and no other row
      found by telegram id. */
  lemma AddedPoints(rows: seq<UserRow>, telegramId: int, amount: int, other: int)
    requires RowOf(rows, telegramId).Some?
    ensures var after := UpdateRows(rows, TelegramIs(telegramId), AddToPoints(amount));
      && RowOf(after, telegramId) == Some(RowOf(rows, telegramId).value.(points := RowOf(rows, telegramId).value.points + amount))
      && (other != telegramId ==> RowOf(after, other) == RowOf(rows, other))
  {
    RowOfUpdate(rows, TelegramIs(telegramId), AddToPoints(amount), telegramId);
    RowOfUpdate(rows, TelegramIs(telegramId), AddToPoints(amount), other);
  }

  // ---------------------------------------------------------------------------
  // Points and ledger totals

  /** The sum of every user's points. */
  function TotalPoints(rows: seq<UserRow>): int {
    if rows == [] then 0 else rows[0].points + TotalPoints(rows[1..])
  }

  /** The number of rows with internal id `id`. */
  function CountId(rows: seq<UserRow>, id: int): nat {
    if rows == [] then 0 else (if rows[0].id == id then 1 else 0) + CountId(rows[1..], id)
  }

  predicate Unique(s: seq<int>) {
    forall i, j :: 0 <= i < j < |s| ==> s[i] != s[j]
  }

  /** The id column, in table order. */
  function Ids(rows: seq<UserRow>): (r: seq<int>)
    ensures |r| == |rows| && forall i :: 0 <= i < |rows| ==> r[i] == rows[i].id
  {
    seq(|rows|, i requires 0 <= i < |rows| => rows[i].id)
  }

  /** The telegram_id column, in table order. */
  function TelegramIds(rows: seq<UserRow>): (r: seq<int>)
    ensures |r| == |rows| && forall i :: 0 <= i < |rows| ==> r[i] == rows[i].telegramId
  {
    seq(|rows|, i requires 0 <= i < |rows| => rows[i].telegramId)
  }

  predicate UniqueIds(rows: seq<UserRow>) {
    Unique(Ids(rows))
  }

  /** The keys of the users table: unique ids below the AUTOINCREMENT counter, and UNIQUE
      telegram ids. */
  predicate KeyedUsers(rows: seq<UserRow>, next: int) {
    1 <= next && UniqueIds(rows) && Unique(TelegramIds(rows)) && forall k :: k in Ids(rows) ==> 1 <= k < next
  }

  /** A row inserted with the next key and a telegram id not yet taken keeps the keys. */
  lemma InsertKeepsKeys(rows: seq<UserRow>, next: int, x: UserRow)
    requires KeyedUsers(rows, next) && x.id == next
    requires forall i :: 0 <= i < |rows| ==> rows[i].telegramId != x.telegramId
    ensures KeyedUsers(rows + [x], next + 1)
  {
    var ids, tids := Ids(rows + [x]), TelegramIds(rows + [x]);
    assert ids == Ids(rows) + [x.id];
    forall i, j | 0 <= i < j < |ids| ensures ids[i] != ids[j] && tids[i] != tids[j] {
      if j == |rows| {
        assert ids[i] in Ids(rows);
      }
    }
  }

  /** No UPDATE changes an id or a telegram id. */
  lemma {:induction false} UpdateKeepsIds(rows: seq<UserRow>, w: Where, c: Change)
    ensures Ids(UpdateRows(rows, w, c)) == Ids(rows) && TelegramIds(UpdateRows(rows, w, c)) == TelegramIds(rows)
  {
    if rows != [] {
      var r, rest := UpdateRows(rows, w, c), UpdateRows(rows[1..], w, c);
      UpdateKeepsIds(rows[1..], w, c);
      assert r == [r[0]] + rest;
      forall i | 1 <= i < |r| ensures r[i].id == rows[i].id && r[i].telegramId == rows[i].telegramId {
        assert r[i] == rest[i - 1] && rows[i] == rows[1..][i - 1];
        assert Ids(rest)[i - 1] == Ids(rows[1..])[i - 1];
        assert TelegramIds(rest)[i - 1] == TelegramIds(rows[1..])[i - 1];
      }
    }
  }

  /** No UPDATE changes a key. */
  lemma UpdateKeepsKeys(rows: seq<UserRow>, w: Where, c: Change, next: int)
    requires KeyedUsers(rows, next)
    ensures KeyedUsers(UpdateRows(rows, w, c), next)
  {
    UpdateKeepsIds(rows, w, c);
  }

  function ConversationIds(convs: seq<Conversation>): (r: seq<int>)
    ensures |r| == |convs| && forall i :: 0 <= i < |convs| ==> r[i] == convs[i].id
  {
    seq(|convs|, i requires 0 <= i < |convs| => convs[i].id)
  }

  predicate KeyedConversations(convs: seq<Conversation>, next: int) {
    1 <= next && Unique(ConversationIds(convs)) && forall k :: k in ConversationIds(convs) ==> 1 <= k < next
  }

  lemma InsertKeepsConversationKeys(convs: seq<Conversation>, next: int, x: Conversation)
    requires KeyedConversations(convs, next) && x.id == next
    ensures KeyedConversations(convs + [x], next + 1)
  {
    var ids := ConversationIds(convs + [x]);
    assert ids == ConversationIds(convs) + [x.id];
    forall i, j | 0 <= i < j < |ids| ensures ids[i] != ids[j] {
      if j == |convs| {
        assert ids[i] in ConversationIds(convs);
      }
    }
  }

  /** The type and descriptions end_conversation writes to its two ledger rows. */
  const ConversationKind := "conversation"
  const TransferredNote := "Points transferred for conversation"
  const ReceivedNote := "Points received from conversation"

  /** The keys of the transactions table: unique ids below the AUTOINCREMENT counter. */
  predicate KeyedTransactions(ts: seq<Transaction>, next: int) {
    && 1 <= next
    && (forall i :: 0 <= i < |ts| ==> 1 <= ts[i].id < next)
    && (forall i, j :: 0 <= i < j < |ts| ==> ts[i].id != ts[j].id)
  }

  /** Ledger rows appended with the counter's next ids keep the ids unique and below the
      advanced counter. */
  lemma AppendKeepsLedgerKeys(ts: seq<Transaction>, next: int, more: seq<Transaction>)
    requires KeyedTransactions(ts, next)
    requires forall k :: 0 <= k < |more| ==> more[k].id == next + k
    ensures KeyedTransactions(ts + more, next + |more|)
  {
    var all := ts + more;
    forall i | 0 <= i < |all| ensures 1 <= all[i].id < next + |more| {
      if i >= |ts| { assert all[i] == more[i - |ts|]; }
    }
    forall i, j | 0 <= i < j < |all| ensures all[i].id != all[j].id {
      if j >= |ts| {
        assert all[j] == more[j - |ts|];
        if i >= |ts| { assert all[i] == more[i - |ts|]; }
      }
    }
  }

  /** `points = points + ?` on the rows with one id adds the amount once per such row. */
  lemma {:induction false} TotalOfAdd(rows: seq<UserRow>, id: int, d: int)
    ensures TotalPoints(UpdateRows(rows, IdIs(id), AddToPoints(d))) == TotalPoints(rows) + d * CountId(rows, id)
  {
    if rows != [] {
      var r := UpdateRows(rows, IdIs(id), AddToPoints(d));
      var rest := UpdateRows(rows[1..], IdIs(id), AddToPoints(d));
      TotalOfAdd(rows[1..], id, d);
      assert r == [r[0]] + rest;
      var c := CountId(rows[1..], id);
      if rows[0].id == id {
        assert d * (1 + c) == d + d * c;
      }
    }
  }

  /** Closing a session touches no balance. */
  lemma {:induction false} TotalOfClose(rows: seq<UserRow>, w: Where, n: int)
    ensures TotalPoints(UpdateRows(rows, w, Close(n))) == TotalPoints(rows)
  {
    if rows != [] {
      TotalOfClose(rows[1..], w, n);
    }
  }

  /** With unique ids, an id that is present is there exactly once. */
  lemma {:induction false} CountOfUnique(rows: seq<UserRow>, id: int)
    requires UniqueIds(rows)
    ensures CountId(rows, id) == (if RowById(rows, id).Some? then 1 else 0)
  {
    if rows != [] {
      CountOfUnique(rows[1..], id);
      if rows[0].id == id {
        forall i | 0 <= i < |rows[1..]| ensures rows[1..][i].id != id {
          assert Ids(rows)[0] != Ids(rows)[i + 1];
        }
        CountAbsent(rows[1..], id);
      }
    }
  }

  /** An id no row has is counted zero times. */
  lemma {:induction false} CountAbsent(rows: seq<UserRow>, id: int)
    requires forall i :: 0 <= i < |rows| ==> rows[i].id != id
    ensures CountId(rows, id) == 0
  {
    if rows != [] {
      assert forall i :: 0 <= i < |rows[1..]| ==> rows[1..][i] == rows[i + 1];
      CountAbsent(rows[1..], id);
    }
  }

  /** The sum of the amounts of a list of ledger rows. */
  function LedgerTotal(ts: seq<Transaction>): int {
    if ts == [] then 0 else LedgerTotal(ts[..|ts| - 1]) + ts[|ts| - 1].amount
  }

  lemma LedgerOfAppend(ts: seq<Transaction>, x: Transaction, y: Transaction)
    ensures LedgerTotal(ts + [x, y]) == LedgerTotal(ts) + x.amount + y.amount
  {
    assert (ts + [x, y])[..|ts| + 1] == ts + [x];
    assert (ts + [x])[..|ts|] == ts;
  }

  // ---------------------------------------------------------------------------
  // Multi-statement effects

  /** The users table after start_conversation's two UPDATEs (database.py:183-184). */
  function Engaged(rows: seq<UserRow>, client: int, partner: int): seq<UserRow> {
    UpdateRows(UpdateRows(rows, TelegramIs(client), Engage(partner)), TelegramIs(partner), Engage(client))
  }

  /** start_conversation leaves two registered users busy, each naming the other's telegram
      id, and every other user as they were. */
  lemma EngagedIsSymmetric(rows: seq<UserRow>, client: int, partner: int, t: int)
    requires client != partner && RowOf(rows, client).Some? && RowOf(rows, partner).Some?
    ensures var after := Engaged(rows, client, partner);
      && RowOf(after, client) == Some(RowOf(rows, client).value.(status := Busy, partnerId := Some(partner)))
      && RowOf(after, partner) == Some(RowOf(rows, partner).value.(status := Busy, partnerId := Some(client)))
      && (t != client && t != partner ==> RowOf(after, t) == RowOf(rows, t))
  {
    var mid := UpdateRows(rows, TelegramIs(client), Engage(partner));
    RowOfUpdate(rows, TelegramIs(client), Engage(partner), client);
    RowOfUpdate(mid, TelegramIs(partner), Engage(client), client);
    RowOfUpdate(rows, TelegramIs(client), Engage(partner), partner);
    RowOfUpdate(mid, TelegramIs(partner), Engage(client), partner);
    RowOfUpdate(rows, TelegramIs(client), Engage(partner), t);
    RowOfUpdate(mid, TelegramIs(partner), Engage(client), t);
  }

  /** The points end_conversation moves: the character count, clamped to the client's
      balance (database.py:214). */
  function Settlement(charCount: int, clientPoints: int): (t: int)
    ensures t <= charCount && t <= clientPoints && (t == charCount || t == clientPoints)
  {
    if charCount < clientPoints then charCount else clientPoints
  }

  /** The users table after end_conversation's three UPDATEs (database.py:217-233). */
  function Settled(rows: seq<UserRow>, client: int, partner: int, t: int, charCount: int): seq<UserRow> {
    var debited := UpdateRows(rows, IdIs(client), AddToPoints(-t));
    var credited := UpdateRows(debited, IdIs(partner), AddToPoints(t));
    UpdateRows(credited, IdIn(client, partner), Close(charCount))
  }

  /** Adding to the balance of one present user of a table with unique ids changes the total
      by exactly that amount. */
  lemma AddOnceTotal(rows: seq<UserRow>, id: int, d: int)
    requires UniqueIds(rows) && RowById(rows, id).Some?
    ensures TotalPoints(UpdateRows(rows, IdIs(id), AddToPoints(d))) == TotalPoints(rows) + d
  {
    CountOfUnique(rows, id);
    TotalOfAdd(rows, id, d);
  }

  /** Settling keeps the ids of the users table unique and below the next id. */
  lemma SettledKeepsKeys(rows: seq<UserRow>, client: int, partner: int, t: int, charCount: int, next: int)
    requires KeyedUsers(rows, next)
    ensures KeyedUsers(Settled(rows, client, partner, t, charCount), next)
  {
    var debited := UpdateRows(rows, IdIs(client), AddToPoints(-t));
    var credited := UpdateRows(debited, IdIs(partner), AddToPoints(t));
    UpdateKeepsKeys(rows, IdIs(client), AddToPoints(-t), next);
    UpdateKeepsKeys(debited, IdIs(partner), AddToPoints(t), next);
    UpdateKeepsKeys(credited, IdIn(client, partner), Close(charCount), next);
  }

  /** Settling moves points between the two users and creates or destroys none. */
  lemma SettledConserves(rows: seq<UserRow>, client: int, partner: int, t: int, charCount: int)
    requires UniqueIds(rows) && RowById(rows, client).Some? && RowById(rows, partner).Some?
    ensures TotalPoints(Settled(rows, client, partner, t, charCount)) == TotalPoints(rows)
  {
    var debited := UpdateRows(rows, IdIs(client), AddToPoints(-t));
    var credited := UpdateRows(debited, IdIs(partner), AddToPoints(t));
    AddOnceTotal(rows, client, -t);
    RowByIdUpdate(rows, IdIs(client), AddToPoints(-t), partner);
    UpdateKeepsIds(rows, IdIs(client), AddToPoints(-t));
    AddOnceTotal(debited, partner, t);
    TotalOfClose(credited, IdIn(client, partner), charCount);
  }

  /** After an update, a row is found by its internal id exactly as before, changed when the
      statement selected it. */
  lemma {:induction false} RowByIdUpdate(rows: seq<UserRow>, w: Where, c: Change, id: int)
    ensures RowById(rows, id).None? ==> RowById(UpdateRows(rows, w, c), id).None?
    ensures RowById(rows, id).Some? ==>
      var r := RowById(rows, id).value;
      RowById(UpdateRows(rows, w, c), id) == Some(if Selects(w, r) then Apply(r, c) else r)
  {
    if rows != [] && rows[0].id != id {
      RowByIdUpdate(rows[1..], w, c, id);
    }
  }

  /** What the three UPDATEs of `Settled` do to one row. */
  function SettledRow(r: UserRow, client: int, partner: int, t: int, charCount: int): UserRow {
    var debited := if Selects(IdIs(client), r) then Apply(r, AddToPoints(-t)) else r;
    var credited := if Selects(IdIs(partner), debited) then Apply(debited, AddToPoints(t)) else debited;
    if Selects(IdIn(client, partner), credited) then Apply(credited, Close(charCount)) else credited
  }

  /** A row found by its id before settling is found after it, changed as `SettledRow` says. */
  lemma SettledFinds(rows: seq<UserRow>, client: int, partner: int, t: int, charCount: int, id: int)
    requires RowById(rows, id).Some?
    ensures RowById(Settled(rows, client, partner, t, charCount), id)
      == Some(SettledRow(RowById(rows, id).value, client, partner, t, charCount))
  {
    var debited := UpdateRows(rows, IdIs(client), AddToPoints(-t));
    var credited := UpdateRows(debited, IdIs(partner), AddToPoints(t));
    RowByIdUpdate(rows, IdIs(client), AddToPoints(-t), id);
    RowByIdUpdate(debited, IdIs(partner), AddToPoints(t), id);
    RowByIdUpdate(credited, IdIn(client, partner), Close(charCount), id);
  }

  /** Settling two different users: the client ends with its balance less the settlement,
      which is never negative, inactive, without a partner, with one more conversation and
      `charCount` more characters. */
  lemma SettledClient(rows: seq<UserRow>, client: int, partner: int, charCount: int)
    requires client != partner && RowById(rows, client).Some?
    ensures var c := RowById(rows, client).value;
      var t := Settlement(charCount, c.points);
      var after := Settled(rows, client, partner, t, charCount);
      && RowById(after, client) == Some(c.(points := c.points - t, status := Inactive, partnerId := None,
           conversationCount := c.conversationCount + 1, totalChars := c.totalChars + charCount))
      && RowById(after, client).value.points >= 0
  {
    var c := RowById(rows, client).value;
    var t := Settlement(charCount, c.points);
    SettledFinds(rows, client, partner, t, charCount, client);
  }

  /** Settling two different users: the partner ends with its balance plus the settlement,
      inactive, without a partner, with one more conversation and `charCount` more
      characters. */
  lemma SettledPartner(rows: seq<UserRow>, client: int, partner: int, charCount: int)
    requires client != partner && RowById(rows, client).Some? && RowById(rows, partner).Some?
    ensures var c, p := RowById(rows, client).value, RowById(rows, partner).value;
      var t := Settlement(charCount, c.points);
      var after := Settled(rows, client, partner, t, charCount);
      RowById(after, partner) == Some(p.(points := p.points + t, status := Inactive, partnerId := None,
        conversationCount := p.conversationCount + 1, totalChars := p.totalChars + charCount))
  {
    var c := RowById(rows, client).value;
    var t := Settlement(charCount, c.points);
    SettledFinds(rows, client, partner, t, charCount, partner);
  }

  /** The conversations table after end_conversation stamps one conversation (database.py:221-225). */
  function Finished(convs: seq<Conversation>, id: int, now: string, charCount: int, t: int): (r: seq<Conversation>)
    ensures |r| == |convs|
    ensures ConversationIds(r) == ConversationIds(convs)
  {
    seq(|convs|, i requires 0 <= i < |convs| =>
      if convs[i].id == id then convs[i].(endedAt := Some(now), clientCharCount := charCount, pointsTransferred := t)
      else convs[i])
  }

  /** Stamping a conversation leaves it findable by its id, with the same two users: nothing
      in end_conversation marks it as settled for good. */
  lemma {:induction false} FinishedFinds(convs: seq<Conversation>, id: int, now: string, charCount: int, t: int)
    requires ConversationOf(convs, id).Some?
    ensures ConversationOf(Finished(convs, id, now, charCount, t), id)
      == Some(ConversationOf(convs, id).value.(endedAt := Some(now), clientCharCount := charCount, pointsTransferred := t))
  {
    var r := Finished(convs, id, now, charCount, t);
    if convs[0].id != id {
      assert r[1..] == Finished(convs[1..], id, now, charCount, t);
      FinishedFinds(convs[1..], id, now, charCount, t);
    }
  }

  /** Two end_conversation calls on one conversation settle it twice: a client with 100
      points and a partner with none, after 10 characters, end with 80 and 20. */
  lemma DoubleSettlement()
    ensures var client := UserRow(1, 555, None, "a", None, None, None, 100, Busy, Some(777), 0, 0, "");
      var partner := UserRow(2, 777, None, "b", None, None, None, 0, Busy, Some(555), 0, 0, "");
      var once := Settled([client, partner], 1, 2, Settlement(10, 100), 10);
      && RowById(once, 1).Some?
      && var twice := Settled(once, 1, 2, Settlement(10, RowById(once, 1).value.points), 10);
      && RowById(twice, 1).Some? && RowById(twice, 1).value.points == 80
      && RowById(twice, 2).Some? && RowById(twice, 2).value.points == 20
  {
    var client := UserRow(1, 555, None, "a", None, None, None, 100, Busy, Some(777), 0, 0, "");
    var partner := UserRow(2, 777, None, "b", None, None, None, 0, Busy, Some(555), 0, 0, "");
    var once := Settled([client, partner], 1, 2, 10, 10);
    SettledFinds([client, partner], 1, 2, 10, 10, 1);
    SettledFinds([client, partner], 1, 2, 10, 10, 2);
    SettledFinds(once, 1, 2, 10, 10, 1);
    SettledFinds(once, 1, 2, 10, 10, 2);
  }

  // ---------------------------------------------------------------------------
  // find_available_partners

  /** The filter of find_available_partners (database.py:258-272): active, without a partner,
      not the excluded user, and, unless the filter is unset or 'Any', of the lower-cased sex
      and of the age group asked for. A NULL column never equals a parameter. */
  predicate Available(r: UserRow, exclude: int, sex: Option<string>, ageGroup: Option<string>) {
    r.status == Active && r.partnerId.None? && r.telegramId != exclude
    && (IsSet(sex) && sex.value != "Any" ==> r.sex == Some(Lower(sex.value)))
    && (IsSet(ageGroup) && ageGroup.value != "Any" ==> r.ageGroup == ageGroup)
  }

  /** The rows the query returns, in table order. */
  function AvailableIn(rows: seq<UserRow>, exclude: int, sex: Option<string>, ageGroup: Option<string>): seq<UserRow> {
    if rows == [] then []
    else
      var last := rows[|rows| - 1];
      AvailableIn(rows[..|rows| - 1], exclude, sex, ageGroup) + (if Available(last, exclude, sex, ageGroup) then [last] else [])
  }

  /** The query returns exactly the available users. */
  lemma {:induction false} AvailableInExactly(rows: seq<UserRow>, exclude: int, sex: Option<string>, ageGroup: Option<string>)
    ensures forall r :: r in AvailableIn(rows, exclude, sex, ageGroup) <==> r in rows && Available(r, exclude, sex, ageGroup)
  {
    if rows != [] {
      var init := rows[..|rows| - 1];
      AvailableInExactly(init, exclude, sex, ageGroup);
      assert rows == init + [rows[|rows| - 1]];
    }
  }

  // ---------------------------------------------------------------------------
  // create_user

  /** The row create_user inserts (database.py:133-143). Each argument is None when the key
      is absent from user_data, so that the column takes the default the code gives it:
      username 'N/A', the generated nickname, full name '', sex 'other', age group '25-30',
      1000 points. The table supplies the rest: status 'inactive', no partner, zero counts. */
  function NewUser(id: int, telegramId: int, username: Option<Option<string>>, nickname: Option<string>,
                   fullName: Option<Option<string>>, sex: Option<Option<string>>, ageGroup: Option<Option<string>>,
                   points: Option<int>, generated: string, now: string): UserRow
  {
    UserRow(id, telegramId, username.GetOr(Some("N/A")), nickname.GetOr(generated),
            fullName.GetOr(Some("")), sex.GetOr(Some("other")), ageGroup.GetOr(Some("25-30")),
            points.GetOr(1000), Inactive, None, 0, 0, now)
  }

  class Database {
    var users: seq<UserRow>
    var conversations: seq<Conversation>
    var transactions: seq<Transaction>
    /** The next AUTOINCREMENT key of each table. */
    var nextUserId: int
    var nextConversationId: int
    var nextTransactionId: int

    /** Keys are unique and below their counters; telegram ids are UNIQUE. */
    ghost predicate Valid()
      reads this
    {
      KeyedUsers(users, nextUserId) && KeyedConversations(conversations, nextConversationId)
      && KeyedTransactions(transactions, nextTransactionId)
    }

    constructor ()
      ensures Valid() && users == [] && conversations == [] && transactions == []
    {
      users := [];
      conversations := [];
      transactions := [];
      nextUserId := 1;
      nextConversationId := 1;
      nextTransactionId := 1;
    }

    /** get_user (database.py:117-126). */
    function GetUser(telegramId: int): Option<UserRow>
      reads this
    {
      RowOf(users, telegramId)
    }

    /** get_user_id (database.py:336-345). */
    function GetUserId(telegramId: int): (r: Option<int>)
      reads this
      requires Valid()
      ensures r.Some? <==> GetUser(telegramId).Some?
      ensures r.Some? ==> r.value == GetUser(telegramId).value.id && r.value >= 1
    {
      match GetUser(telegramId)
      case None => None
      case Some(row) =>
        RowOfFinds(users, telegramId);
        var i :| 0 <= i < |users| && users[i] == row && users[i].telegramId == telegramId;
        assert Ids(users)[i] == row.id && Ids(users)[i] in Ids(users);
        Some(row.id)
    }

    /** create_user (database.py:128-149): fails, changing nothing, when the telegram id is
        already taken or the nickname is None; otherwise appends the new row. */
    method CreateUser(telegramId: int, username: Option<Option<string>>, nickname: Option<Option<string>>,
                      fullName: Option<Option<string>>, sex: Option<Option<string>>, ageGroup: Option<Option<string>>,
                      points: Option<int>, generated: string, now: string) returns (ok: bool)
      requires Valid()
      modifies this`users, this`nextUserId
      ensures Valid()
      ensures ok <==> RowOf(old(users), telegramId).None? && nickname != Some(None)
      ensures !ok ==> users == old(users) && nextUserId == old(nextUserId)
      ensures ok ==>
        && users == old(users) + [NewUser(old(nextUserId), telegramId, username, Flatten(nickname), fullName, sex, ageGroup, points, generated, now)]
        && nextUserId == old(nextUserId) + 1
    {
      if GetUser(telegramId).Some? || nickname == Some(None) {
        return false;
      }
      var row := NewUser(nextUserId, telegramId, username, Flatten(nickname), fullName, sex, ageGroup, points, generated, now);
      RowOfFinds(users, telegramId);
      InsertKeepsKeys(users, nextUserId, row);
      users := users + [row];
      nextUserId := nextUserId + 1;
      return true;
    }

    /** update_user (database.py:151-162): an empty update, an unknown column, or a NULL
        nickname reaching a row fails and changes nothing; otherwise the named columns of the
        row with that telegram id change, and the result is True even when no row has it. */
    method UpdateUser(telegramId: int, updates: seq<Assignment>) returns (ok: bool)
      requires Valid() && DistinctColumns(updates)
      modifies this`users
      ensures Valid()
      ensures ok <==> |updates| > 0 && !UnknownColumn(updates) && !(RowOf(old(users), telegramId).Some? && NullNickname(updates))
      ensures !ok ==> users == old(users)
      ensures ok ==> users == UpdateRows(old(users), TelegramIs(telegramId), Columns(updates))
    {
      if |updates| == 0 || UnknownColumn(updates) || (GetUser(telegramId).Some? && NullNickname(updates)) {
        return false;
      }
      UpdateKeepsKeys(users, TelegramIs(telegramId), Columns(updates), nextUserId);
      users := UpdateRows(users, TelegramIs(telegramId), Columns(updates));
      return true;
    }

    /** start_conversation (database.py:165-190): None, changing nothing, when either telegram
        id is unregistered; otherwise a new conversation between the two internal ids, both
        users busy and naming each other's telegram id, and the new conversation's id. */
    method StartConversation(client: int, partner: int, now: string) returns (r: Option<int>)
      requires Valid()
      modifies this`users, this`conversations, this`nextConversationId
      ensures Valid()
      ensures r.None? <==> RowOf(old(users), client).None? || RowOf(old(users), partner).None?
      ensures r.None? ==>
        users == old(users) && conversations == old(conversations) && nextConversationId == old(nextConversationId)
      ensures r.Some? ==>
        && r.value == old(nextConversationId) && nextConversationId == r.value + 1
        && conversations == old(conversations) + [Conversation(r.value, RowOf(old(users), client).value.id,
             RowOf(old(users), partner).value.id, now, None, 0, 0)]
        && users == Engaged(old(users), client, partner)
    {
      var clientId := GetUserId(client);
      var partnerId := GetUserId(partner);
      if clientId.None? || clientId.value == 0 || partnerId.None? || partnerId.value == 0 {
        return None;
      }
      var conv := Conversation(nextConversationId, clientId.value, partnerId.value, now, None, 0, 0);
      InsertKeepsConversationKeys(conversations, nextConversationId, conv);
      conversations := conversations + [conv];
      r := Some(nextConversationId);
      nextConversationId := nextConversationId + 1;
      UpdateKeepsKeys(users, TelegramIs(client), Engage(partner), nextUserId);
      users := UpdateRows(users, TelegramIs(client), Engage(partner));
      UpdateKeepsKeys(users, TelegramIs(partner), Engage(client), nextUserId);
      users := UpdateRows(users, TelegramIs(partner), Engage(client));
    }

    /** end_conversation (database.py:192-251): False, changing nothing, when the conversation
        or either of its users is missing. Otherwise the settlement t = min(charCount, client
        points) moves from client to partner, the conversation is stamped, both users are
        freed, and the ledger gains -t for the client and +t for the partner. Nothing checks
        ended_at, so a repeated call settles again (`FinishedFinds`, `DoubleSettlement`). */
    method EndConversation(conversationId: int, charCount: int, now: string) returns (ok: bool)
      requires Valid()
      modifies this`users, this`conversations, this`transactions, this`nextTransactionId
      ensures Valid()
      ensures var c := ConversationOf(old(conversations), conversationId);
        ok <==> c.Some? && RowById(old(users), c.value.clientId).Some? && RowById(old(users), c.value.partnerId).Some?
      ensures !ok ==>
        && users == old(users) && conversations == old(conversations)
        && transactions == old(transactions) && nextTransactionId == old(nextTransactionId)
      ensures ok ==>
        var c := ConversationOf(old(conversations), conversationId).value;
        var t := Settlement(charCount, RowById(old(users), c.clientId).value.points);
        && users == Settled(old(users), c.clientId, c.partnerId, t, charCount)
        && conversations == Finished(old(conversations), conversationId, now, charCount, t)
        && transactions == old(transactions) + [
             Transaction(old(nextTransactionId), c.clientId, -t, ConversationKind, TransferredNote, None, now),
             Transaction(old(nextTransactionId) + 1, c.partnerId, t, ConversationKind, ReceivedNote, None, now)]
        && nextTransactionId == old(nextTransactionId) + 2
    {
      var conv := ConversationOf(conversations, conversationId);
      if conv.None? {
        return false;
      }
      var c := conv.value;
      var clientRow := RowById(users, c.clientId);
      var partnerRow := RowById(users, c.partnerId);
      if clientRow.None? || partnerRow.None? {
        return false;
      }
      var t := Settlement(charCount, clientRow.value.points);
      Settle(c.clientId, c.partnerId, t, charCount);
      conversations := Finished(conversations, conversationId, now, charCount, t);
      var debit := Transaction(nextTransactionId, c.clientId, -t, ConversationKind, TransferredNote, None, now);
      var credit := Transaction(nextTransactionId + 1, c.partnerId, t, ConversationKind, ReceivedNote, None, now);
      Log([debit, credit]);
      return true;
    }

    /** end_conversation as evidently intended: a conversation whose ended_at is set is
        refused with nothing changed, so every conversation is settled at most once. Any
        other call behaves as `EndConversation`. */
    method EndConversationOnce(conversationId: int, charCount: int, now: string) returns (ok: bool)
      requires Valid()
      modifies this`users, this`conversations, this`transactions, this`nextTransactionId
      ensures Valid()
      ensures var c := ConversationOf(old(conversations), conversationId);
        ok <==> (c.Some? && c.value.endedAt.None?
                 && RowById(old(users), c.value.clientId).Some? && RowById(old(users), c.value.partnerId).Some?)
      ensures !ok ==>
        && users == old(users) && conversations == old(conversations)
        && transactions == old(transactions) && nextTransactionId == old(nextTransactionId)
      ensures ok ==>
        var c := ConversationOf(old(conversations), conversationId).value;
        var t := Settlement(charCount, RowById(old(users), c.clientId).value.points);
        && users == Settled(old(users), c.clientId, c.partnerId, t, charCount)
        && conversations == Finished(old(conversations), conversationId, now, charCount, t)
        && transactions == old(transactions) + [
             Transaction(old(nextTransactionId), c.clientId, -t, ConversationKind, TransferredNote, None, now),
             Transaction(old(nextTransactionId) + 1, c.partnerId, t, ConversationKind, ReceivedNote, None, now)]
        && nextTransactionId == old(nextTransactionId) + 2
      ensures ok ==>
        ConversationOf(conversations, conversationId).Some? && ConversationOf(conversations, conversationId).value.endedAt.Some?
    {
      var conv := ConversationOf(conversations, conversationId);
      if conv.Some? && conv.value.endedAt.Some? {
        return false;
      }
      ghost var before := conversations;
      ok := EndConversation(conversationId, charCount, now);
      if ok {
        var t := Settlement(charCount, RowById(old(users), conv.value.clientId).value.points);
        FinishedFinds(before, conversationId, now, charCount, t);
      }
    }

    /** find_available_partners (database.py:254-278): the users the filter admits, in table
        order. */
    method FindAvailablePartners(exclude: int, sex: Option<string>, ageGroup: Option<string>) returns (r: seq<UserRow>)
      ensures r == AvailableIn(users, exclude, sex, ageGroup)
      ensures forall x :: x in r <==> x in users && Available(x, exclude, sex, ageGroup)
    {
      r := [];
      var i := 0;
      while i < |users|
        invariant 0 <= i <= |users|
        invariant r == AvailableIn(users[..i], exclude, sex, ageGroup)
      {
        assert users[..i + 1][..i] == users[..i];
        if Available(users[i], exclude, sex, ageGroup) {
          r := r + [users[i]];
        }
        i := i + 1;
      }
      assert users[..i] == users;
      AvailableInExactly(users, exclude, sex, ageGroup);
    }

    /** end_conversation's three UPDATEs of users (database.py:217-233). */
    method Settle(client: int, partner: int, t: int, charCount: int)
      requires Valid()
      modifies this`users
      ensures Valid()
      ensures users == Settled(old(users), client, partner, t, charCount)
    {
      SettledKeepsKeys(users, client, partner, t, charCount, nextUserId);
      users := Settled(users, client, partner, t, charCount);
    }

    /** The INSERTs into transactions: the rows take the counter's next ids in order. */
    method Log(entries: seq<Transaction>)
      requires Valid()
      requires forall k :: 0 <= k < |entries| ==> entries[k].id == nextTransactionId + k
      modifies this`transactions, this`nextTransactionId
      ensures Valid()
      ensures transactions == old(transactions) + entries
      ensures nextTransactionId == old(nextTransactionId) + |entries|
    {
      AppendKeepsLedgerKeys(transactions, nextTransactionId, entries);
      transactions := transactions + entries;
      nextTransactionId := nextTransactionId + |entries|;
    }

    /** add_points (database.py:296-315): False, changing nothing, for an unknown telegram id
        (the ledger row's user id would be NULL); otherwise the amount, which may be negative,
        is added and logged as a 'deposit' when positive and a 'withdrawal' otherwise. */
    method AddPoints(telegramId: int, amount: int, description: string, adminId: Option<int>, now: string) returns (ok: bool)
      requires Valid()
      modifies this`users, this`transactions, this`nextTransactionId
      ensures Valid()
      ensures ok <==> RowOf(old(users), telegramId).Some?
      ensures !ok ==> users == old(users) && transactions == old(transactions) && nextTransactionId == old(nextTransactionId)
      ensures ok ==>
        && users == UpdateRows(old(users), TelegramIs(telegramId), AddToPoints(amount))
        && transactions == old(transactions) + [Transaction(old(nextTransactionId), RowOf(old(users), telegramId).value.id, amount,
             if amount > 0 then "deposit" else "withdrawal", description, adminId, now)]
        && nextTransactionId == old(nextTransactionId) + 1
    {
      var id := GetUserId(telegramId);
      if id.None? {
        return false;
      }
      UpdateKeepsKeys(users, TelegramIs(telegramId), AddToPoints(amount), nextUserId);
      users := UpdateRows(users, TelegramIs(telegramId), AddToPoints(amount));
      var kind := if amount > 0 then "deposit" else "withdrawal";
      var entry := Transaction(nextTransactionId, id.value, amount, kind, description, adminId, now);
      Log([entry]);
      return true;
    }
  }
}
