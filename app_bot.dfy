/** app.py: the variant that keeps its users in one SQLite table. Every handler reads a row
    with get_user_data, merges an update into it and writes it back with INSERT OR REPLACE
    (update_user_data), one write at a time. */
module AppBot {
  import opened Common
  import opened Text

  /** conversation_partner once get_user_data has read it back: None (stored as the text
      'None'), the empty text (falsy, so get_user_data leaves it alone), or a user id. */
  datatype Partner = NoPartner | Blank | PartnerId(id: int)

  /** The partner a handler acts on: `if partner_id:` holds only for a non-zero id. */
  function Target(p: Partner): Option<int> {
    if p.PartnerId? && p.id != 0 then Some(p.id) else None
  }

  /** A row of the users table (app.py:72-87) as get_user_data returns it: the 0/1 INTEGER
      flags are the bools that bool() reads back, and conversation_partner is decoded. */
  datatype UserData = UserData(
    points: int,
    profileComplete: bool,
    inPool: bool,
    inConversation: bool,
    partner: Partner,
    isInitiator: bool,
    joinedDate: string,
    username: Option<string>,
    gender: Option<string>,
    ageGroup: Option<string>,
    nickname: Option<string>,
    preferredGender: Option<string>,
    preferredAgeGroup: Option<string>)

  /** The same row as stored: conversation_partner is the TEXT that str() wrote. */
  datatype Row = Row(
    points: int,
    profileComplete: bool,
    inPool: bool,
    inConversation: bool,
    partner: string,
    isInitiator: bool,
    joinedDate: string,
    username: Option<string>,
    gender: Option<string>,
    ageGroup: Option<string>,
    nickname: Option<string>,
    preferredGender: Option<string>,
    preferredAgeGroup: Option<string>)

  /** str() of the value update_user_data saves into conversation_partner (app.py:134). */
  function WritePartner(p: Partner): string {
    match p
    case NoPartner => "None"
    case Blank => ""
    case PartnerId(n) => IntToString(n)
  }

  /** get_user_data's reading of conversation_partner (app.py:111-112): a truthy text goes
      through safe_int. */
  function ReadPartner(text: string): Result<Partner> {
    if text == "" then Ok(Blank)
    else
      match SafeInt(Some(text))
      case Ok(None) => Ok(NoPartner)
      case Ok(Some(n)) => Ok(PartnerId(n))
      case ValueError => ValueError
  }

  /** get_all_users' reading of conversation_partner (app.py:191-192): a truthy text goes
      straight through int(). */
  function ScanPartner(text: string): Result<Partner> {
    if text == "" then Ok(Blank)
    else
      match ParseInt(text)
      case Some(n) => Ok(PartnerId(n))
      case None => ValueError
  }

  /** What update_user_data writes, get_user_data reads back unchanged. */
  lemma ReadWritePartner(p: Partner)
    ensures ReadPartner(WritePartner(p)) == Ok(p)
  {
    match p
    case NoPartner =>
      SafeIntOfNone("None");
    case Blank =>
    case PartnerId(n) =>
      SafeIntOfIntToString(n);
  }

  /** Where get_all_users' int() succeeds it agrees with get_user_data's safe_int. */
  lemma ScanAgreesWithRead(text: string)
    requires ScanPartner(text).Ok?
    ensures ReadPartner(text) == ScanPartner(text)
  {
    if text != "" {
      assert Lower(text)[0] == text[0] != "none"[0];
    }
  }

  /** The reset partner that update_user_data saves as 'None' is text that int() rejects. */
  lemma ScanRejectsResetPartner()
    ensures ScanPartner(WritePartner(NoPartner)) == ValueError
  {
    assert !IsDigit("None"[0]);
  }

  /** The row update_user_data saves for a merged dict. */
  function Stored(d: UserData): Row {
    Row(d.points, d.profileComplete, d.inPool, d.inConversation, WritePartner(d.partner),
      d.isInitiator, d.joinedDate, d.username, d.gender, d.ageGroup, d.nickname,
      d.preferredGender, d.preferredAgeGroup)
  }

  /** The dict built from a stored row once its conversation_partner is decoded as `p`. */
  function WithPartner(r: Row, p: Partner): UserData {
    UserData(r.points, r.profileComplete, r.inPool, r.inConversation, p,
      r.isInitiator, r.joinedDate, r.username, r.gender, r.ageGroup, r.nickname,
      r.preferredGender, r.preferredAgeGroup)
  }

  /** The dict get_user_data returns for a stored row. */
  function Load(r: Row): UserData
    requires ReadPartner(r.partner).Ok?
  {
    WithPartner(r, ReadPartner(r.partner).value)
  }

  lemma LoadStored(d: UserData)
    ensures ReadPartner(Stored(d).partner).Ok? && Load(Stored(d)) == d
  {
    ReadWritePartner(d.partner);
  }

  /** int() fails on the stored conversation_partner exactly when it holds the reset value,
      and otherwise reads back what was written. */
  lemma ScanWritePartner(p: Partner)
    ensures ScanPartner(WritePartner(p)).ValueError? <==> p == NoPartner
    ensures p != NoPartner ==> ScanPartner(WritePartner(p)) == Ok(p)
  {
    match p
    case NoPartner => ScanRejectsResetPartner();
    case Blank =>
    case PartnerId(n) => ParseIntOfIntToString(n);
  }

  /** get_user_data's decoding of the row update_user_data stored for `d`: safe_int gives
      back what str() wrote. */
  method ReadRow(d: UserData) returns (r: UserData)
    ensures r == d
  {
    var row := Stored(d);
    LoadStored(d);
    r := Load(row);
  }

  /** get_all_users' decoding of the row update_user_data stored for `d` (app.py:186-193):
      int() raises exactly on the reset partner, and otherwise gives back what was written. */
  method ScanRow(d: UserData) returns (r: Result<UserData>)
    ensures r.ValueError? <==> d.partner == NoPartner
    ensures r.Ok? ==> r.value == d
  {
    var row := Stored(d);
    ScanWritePartner(d.partner);
    var p := ScanPartner(row.partner);
    if p.ValueError? {
      return ValueError;
    }
    return Ok(WithPartner(row, p.value));
  }

  /** The record update_user_data builds for an id without a row: the defaults of
      app.py:130-143, with joined_date taken from the clock. */
  function Fresh(now: string): UserData {
    UserData(1000, false, false, false, Blank, false, now, None, None, None, None, None, None)
  }

  function PartnerValue(v: Option<int>): Partner {
    match v
    case None => NoPartner
    case Some(n) => PartnerId(n)
  }

  /** `current_data.update(updates)` (app.py:127) on a full record. */
  function Overlay(d: UserData, u: Fields): UserData {
    UserData(
      u.points.GetOr(d.points),
      u.profileComplete.GetOr(d.profileComplete),
      u.inPool.GetOr(d.inPool),
      u.inConversation.GetOr(d.inConversation),
      if u.partner.Some? then PartnerValue(u.partner.value) else d.partner,
      u.isInitiator.GetOr(d.isInitiator),
      u.joinedDate.GetOr(d.joinedDate),
      u.username.GetOr(d.username),
      u.gender.GetOr(d.gender),
      u.ageGroup.GetOr(d.ageGroup),
      u.nickname.GetOr(d.nickname),
      u.preferredGender.GetOr(d.preferredGender),
      u.preferredAgeGroup.GetOr(d.preferredAgeGroup))
  }

  /** What each of the handlers' updates does to a full record. */
  lemma OverlayPoints(d: UserData, n: int)
    ensures Overlay(d, PointsUpdate(n)) == d.(points := n)
  {
  }

  lemma OverlayPreferredAge(d: UserData, pref: Option<string>)
    ensures Overlay(d, PreferredAgeUpdate(pref)) == d.(preferredAgeGroup := pref)
  {
  }

  lemma OverlayBind(d: UserData, partner: int, initiator: bool)
    ensures Overlay(d, BindUpdate(partner, initiator)) == Bound(d, partner, initiator)
  {
  }

  /** The table after handle_age_preference pairs `seeker` with `partner`: the seeker's row
      binds it to the partner as initiator, then the partner's row, read after that write,
      binds it to the seeker as responder (app.py:456-459). */
  function BoundPair(rows: map<int, UserData>, seeker: int, partner: int, now: string): map<int, UserData>
    requires seeker in rows
  {
    var r1 := rows[seeker := Bound(rows[seeker], partner, true)];
    r1[partner := Bound(Lookup(r1, partner).GetOr(Fresh(now)), seeker, false)]
  }

  lemma BoundPairBySteps(r0: map<int, UserData>, r1: map<int, UserData>, r2: map<int, UserData>,
                         seeker: int, partner: int, now: string, first: Fields, second: Fields)
    requires seeker in r0
    requires first == BindUpdate(partner, true) && second == BindUpdate(seeker, false)
    requires r1 == r0[seeker := Overlay(Lookup(r0, seeker).GetOr(Fresh(now)), first)]
    requires r2 == r1[partner := Overlay(Lookup(r1, partner).GetOr(Fresh(now)), second)]
    ensures r2 == BoundPair(r0, seeker, partner, now)
  {
    OverlayBind(r0[seeker], partner, true);
    OverlayBind(Lookup(r1, partner).GetOr(Fresh(now)), seeker, false);
  }

  /** Pairing two distinct users, neither of them in a conversation, keeps the links
      symmetric. */
  lemma BoundPairKeepsSymmetric(rows: map<int, UserData>, seeker: int, partner: int, now: string)
    requires Symmetric(rows) && seeker in rows
    requires seeker != partner && seeker != 0 && partner != 0
    requires SessionOf(rows, seeker).None? && SessionOf(rows, partner).None?
    ensures Symmetric(BoundPair(rows, seeker, partner, now))
  {
    var rows' := BoundPair(rows, seeker, partner, now);
    assert forall x :: x != seeker && x != partner ==> SessionOf(rows', x) == SessionOf(rows, x);
    BindKeepsSymmetric(rows, rows', seeker, partner);
  }

  /** The table after the payer of a message pays `cost` to the payee: the payer's points
      drop by `cost`, then the payee's balance as read before the debit rises by `cost`
      (app.py:615-618). A payee without a row gets a fresh one holding the credit. */
  function Transferred(rows: map<int, UserData>, payer: int, payee: int, cost: nat, now: string): map<int, UserData>
    requires payer in rows
  {
    rows[payer := rows[payer].(points := rows[payer].points - cost)]
        [payee := Lookup(rows, payee).GetOr(Fresh(now)).(points := PointsOf(rows, payee) + cost)]
  }

  /** The two update_user_data calls of a payment, the debit and then the credit computed
      from the balance read before it, leave the table Transferred describes. */
  lemma TransferredBySteps(r0: map<int, UserData>, r1: map<int, UserData>, r2: map<int, UserData>,
                           payer: int, payee: int, cost: nat, now: string, debit: Fields, credit: Fields)
    requires payer in r0
    requires debit == PointsUpdate(r0[payer].points - cost) && credit == PointsUpdate(PointsOf(r0, payee) + cost)
    requires r1 == r0[payer := Overlay(Lookup(r0, payer).GetOr(Fresh(now)), debit)]
    requires r2 == r1[payee := Overlay(Lookup(r1, payee).GetOr(Fresh(now)), credit)]
    ensures r2 == Transferred(r0, payer, payee, cost, now)
  {
    OverlayPoints(r0[payer], r0[payer].points - cost);
    OverlayPoints(Lookup(r1, payee).GetOr(Fresh(now)), PointsOf(r0, payee) + cost);
  }

  /** A payment between two different users moves `cost` points from one to the other: their
      sum is unchanged and every other user is untouched. */
  lemma TransferConserves(rows: map<int, UserData>, payer: int, payee: int, cost: nat, now: string)
    requires payer in rows && payer != payee
    ensures var rows' := Transferred(rows, payer, payee, cost, now);
      && PointsOf(rows', payer) == PointsOf(rows, payer) - cost
      && PointsOf(rows', payee) == PointsOf(rows, payee) + cost
      && (forall x :: x != payer && x != payee ==> Lookup(rows', x) == Lookup(rows, x))
  {
  }

  /** A payment the payer can afford leaves no balance negative. */
  lemma TransferKeepsNonNegative(rows: map<int, UserData>, payer: int, payee: int, cost: nat, now: string)
    requires payer in rows
    ensures NonNegative(rows) && rows[payer].points >= cost ==> NonNegative(Transferred(rows, payer, payee, cost, now))
  {
  }

  /** A payment changes no session. */
  lemma TransferKeepsSessions(rows: map<int, UserData>, payer: int, payee: int, cost: nat, now: string)
    requires payer in rows
    ensures forall x :: SessionOf(Transferred(rows, payer, payee, cost, now), x) == SessionOf(rows, x)
  {
  }

  /** The session fields after end_conversation or report_user reset them. */
  function Reset(d: UserData): UserData {
    d.(inConversation := false, partner := NoPartner, isInitiator := false)
  }

  /** The session fields after pairing binds the user to `partner`. */
  function Bound(d: UserData, partner: int, initiator: bool): UserData {
    d.(inConversation := true, partner := PartnerId(partner), isInitiator := initiator)
  }

  // ---------------------------------------------------------------------------
  // The table as values

  /** get_user_data: the decoded row, or None for the empty dict of an unknown id. */
  function Lookup(rows: map<int, UserData>, id: int): Option<UserData> {
    if id in rows then Some(rows[id]) else None
  }

  /** `user_data.get('points', 0)` */
  function PointsOf(rows: map<int, UserData>, id: int): int {
    if id in rows then rows[id].points else 0
  }

  function InConversation(d: Option<UserData>): bool {
    d.Some? && d.value.inConversation
  }

  /** The partner of a user who is in a conversation; None for anyone else. */
  function SessionOf(rows: map<int, UserData>, id: int): Option<Partner>
  {
    var d := Lookup(rows, id);
    if InConversation(d) then Some(d.value.partner) else None
  }

  /** A user in a conversation names a truthy partner other than themself, who is in a
      conversation and names them back. */
  ghost predicate Linked(rows: map<int, UserData>, a: int)
  {
    SessionOf(rows, a).Some? ==>
      var b := Target(SessionOf(rows, a).value);
      b.Some? && b.value != a && SessionOf(rows, b.value) == Some(PartnerId(a))
  }

  ghost predicate Symmetric(rows: map<int, UserData>)
  {
    forall a :: Linked(rows, a)
  }

  ghost predicate NonNegative(rows: map<int, UserData>) {
    forall id :: id in rows ==> rows[id].points >= 0
  }

  /** Changes that leave every session as it was keep the links symmetric. */
  lemma SessionsKeptSymmetric(rows: map<int, UserData>, rows': map<int, UserData>)
    requires Symmetric(rows)
    requires forall x :: SessionOf(rows', x) == SessionOf(rows, x)
    ensures Symmetric(rows')
  {
    forall a ensures Linked(rows', a) {
      assert Linked(rows, a);
    }
  }

  /** Ending the session of `u` and its partner `p` on both sides keeps every other link. */
  lemma {:induction false} EndKeepsSymmetric(rows: map<int, UserData>, rows': map<int, UserData>, u: int, p: int)
    requires Symmetric(rows)
    requires SessionOf(rows, u).Some? && Target(SessionOf(rows, u).value) == Some(p)
    requires SessionOf(rows', u).None? && SessionOf(rows', p).None?
    requires forall x :: x != u && x != p ==> SessionOf(rows', x) == SessionOf(rows, x)
    ensures Symmetric(rows')
  {
    assert Linked(rows, u);
    forall a | SessionOf(rows', a).Some? ensures Linked(rows', a) {
      assert a != u && a != p;
      assert Linked(rows, a);
      var b := Target(SessionOf(rows, a).value).value;
      assert b != u;
      assert b != p;
    }
  }

  /** Binding two users who were in no session to each other keeps every other link. */
  lemma {:induction false} BindKeepsSymmetric(rows: map<int, UserData>, rows': map<int, UserData>, u: int, p: int)
    requires Symmetric(rows)
    requires u != p && u != 0 && p != 0
    requires SessionOf(rows, u).None? && SessionOf(rows, p).None?
    requires SessionOf(rows', u) == Some(PartnerId(p)) && SessionOf(rows', p) == Some(PartnerId(u))
    requires forall x :: x != u && x != p ==> SessionOf(rows', x) == SessionOf(rows, x)
    ensures Symmetric(rows')
  {
    forall a | SessionOf(rows', a).Some? && a != u && a != p ensures Linked(rows', a) {
      assert Linked(rows, a);
      var b := Target(SessionOf(rows, a).value).value;
      assert b != u && b != p;
    }
    forall a ensures Linked(rows', a) {
    }
  }

  // ---------------------------------------------------------------------------
  // Scan order

  predicate Distinct(s: seq<int>) {
    forall i, j :: 0 <= i < j < |s| ==> s[i] != s[j]
  }

  /** `s` with every occurrence of `x` removed. */
  function Without(s: seq<int>, x: int): (r: seq<int>)
    ensures forall y :: y in r <==> y in s && y != x
    ensures Distinct(s) ==> Distinct(r)
  {
    if s == [] then []
    else if s[0] == x then Without(s[1..], x)
    else
      var rest := Without(s[1..], x);
      assert forall i :: 0 <= i < |rest| ==> rest[i] in rest;
      assert forall i :: 0 <= i < |s| - 1 ==> s[1..][i] == s[i + 1];
      [s[0]] + rest
  }

  /** The rowid order after INSERT OR REPLACE of `id`: the old row, if any, is deleted and
      the new one inserted with the largest rowid, so `SELECT *` returns it last. */
  function Requeued(s: seq<int>, id: int): (r: seq<int>)
    ensures forall y :: y in r <==> y in s || y == id
    ensures forall i :: 0 <= i < |r| ==> r[i] in s || r[i] == id
    ensures Distinct(s) ==> Distinct(r)
  {
    var w := Without(s, id);
    assert forall i :: 0 <= i < |w| ==> w[i] in w;
    w + [id]
  }

  // ---------------------------------------------------------------------------
  // find_partner

  /** One item of get_all_users' result: a user id and its record. */
  datatype Entry = Entry(id: int, data: UserData)

  /** The records in scan order, as get_all_users builds them. */
  function Entries(ids: seq<int>, rows: map<int, UserData>): (r: seq<Entry>)
    requires forall i :: 0 <= i < |ids| ==> ids[i] in rows
    ensures |r| == |ids|
    ensures forall i :: 0 <= i < |ids| ==> r[i] == Entry(ids[i], rows[ids[i]])
  {
    if ids == [] then []
    else
      [Entry(ids[0], rows[ids[0]])] + Entries(ids[1..], rows)
  }

  /** find_partner's test of one user (app.py:227-236): not the seeker, in the pool, not in a
      conversation, with a complete profile, and admitted by each preference the seeker set. */
  predicate Candidate(e: Entry, seeker: int, prefs: UserData) {
    e.id != seeker && e.data.inPool && !e.data.inConversation && e.data.profileComplete
    && Admits(prefs.preferredGender, e.data.gender)
    && Admits(prefs.preferredAgeGroup, e.data.ageGroup)
  }

  /** The id of the first candidate in scan order. */
  function FirstMatch(all: seq<Entry>, seeker: int, prefs: UserData): Option<int> {
    if all == [] then None
    else if Candidate(all[0], seeker, prefs) then Some(all[0].id)
    else FirstMatch(all[1..], seeker, prefs)
  }

  /** FirstMatch finds a candidate exactly when there is one, and the one it finds comes
      before every other. */
  lemma {:induction false} FirstMatchIsFirst(all: seq<Entry>, seeker: int, prefs: UserData)
    ensures FirstMatch(all, seeker, prefs).None? <==>
      forall k :: 0 <= k < |all| ==> !Candidate(all[k], seeker, prefs)
    ensures FirstMatch(all, seeker, prefs).Some? ==>
      exists k :: 0 <= k < |all| && all[k].id == FirstMatch(all, seeker, prefs).value
        && Candidate(all[k], seeker, prefs)
        && forall j :: 0 <= j < k ==> !Candidate(all[j], seeker, prefs)
  {
    if all != [] && !Candidate(all[0], seeker, prefs) {
      var rest := all[1..];
      FirstMatchIsFirst(rest, seeker, prefs);
      assert forall k :: 1 <= k < |all| ==> all[k] == rest[k - 1];
      if FirstMatch(rest, seeker, prefs).Some? {
        var k :| 0 <= k < |rest| && rest[k].id == FirstMatch(rest, seeker, prefs).value
          && Candidate(rest[k], seeker, prefs)
          && forall j :: 0 <= j < k ==> !Candidate(rest[j], seeker, prefs);
        assert all[k + 1] == rest[k];
      }
    }
  }

  /** What find_partner returns for a table read in the order `ids`: None unless the seeker
      is in the pool, otherwise the first candidate. */
  function SearchIn(ids: seq<int>, rows: map<int, UserData>, seeker: int): Option<int>
    requires forall i :: 0 <= i < |ids| ==> ids[i] in rows
  {
    var d := Lookup(rows, seeker);
    if d.Some? && d.value.inPool then FirstMatch(Entries(ids, rows), seeker, d.value) else None
  }

  /** The loop of find_partner (app.py:226-238) over the records get_all_users returned. */
  method FirstCandidate(all: seq<Entry>, seeker: int, prefs: UserData) returns (r: Option<int>)
    ensures r == FirstMatch(all, seeker, prefs)
  {
    var i := 0;
    while i < |all|
      invariant 0 <= i <= |all|
      invariant FirstMatch(all[i..], seeker, prefs) == FirstMatch(all, seeker, prefs)
    {
      assert all[i..][1..] == all[i + 1..];
      if Candidate(all[i], seeker, prefs) {
        return Some(all[i].id);
      }
      i := i + 1;
    }
    return None;
  }

  // ---------------------------------------------------------------------------
  // Handler outcomes

  datatype PoolOutcome = NotRegistered | ProfileIncomplete | AlreadyInPool | Joined | NotInPool | Left

  datatype PairOutcome = NoMatch | Paired(partner: int)

  datatype EndOutcome = NotInConversation | NoPartnerFound | Ended(partner: Option<int>)

  datatype SendOutcome = NotChatting | PartnerMissing | Ignored | InsufficientPoints | Forwarded(to: int, charged: nat)

  /** The users table. */
  class UsersTable {
    /** The user ids in rowid order, which is the order `SELECT * FROM users` returns rows in. */
    var ids: seq<int>
    var rows: map<int, UserData>

    ghost predicate Valid()
      reads this
    {
      Distinct(ids) && (forall id :: id in ids <==> id in rows) && (forall i :: 0 <= i < |ids| ==> ids[i] in rows)
    }

    function GetUserData(id: int): Option<UserData>
      reads this
      requires Valid()
    {
      Lookup(rows, id)
    }

    function AllUsers(): seq<Entry>
      reads this
      requires Valid()
    {
      Entries(ids, rows)
    }

    function Search(seeker: int): Option<int>
      reads this
      requires Valid()
    {
      SearchIn(ids, rows, seeker)
    }

    /** update_user_data (app.py:122-174): read the row, merge the update, write it back with
        INSERT OR REPLACE. Only `id`'s row changes; it moves to the end of the scan order. */
    method UpdateUserData(id: int, u: Fields, now: string)
      requires Valid()
      modifies this
      ensures Valid()
      ensures rows == old(rows)[id := Overlay(Lookup(old(rows), id).GetOr(Fresh(now)), u)]
      ensures ids == Requeued(old(ids), id)
      ensures Lookup(rows, id) == Some(Overlay(Lookup(old(rows), id).GetOr(Fresh(now)), u))
      ensures forall x :: x != id ==> Lookup(rows, x) == Lookup(old(rows), x)
    {
      var current := GetUserData(id);
      var merged := Overlay(current.GetOr(Fresh(now)), u);
      var row := Stored(merged);
      LoadStored(merged);
      rows := rows[id := Load(row)];
      ids := Requeued(ids, id);
      forall i | 0 <= i < |ids| ensures ids[i] in rows {
        assert ids[i] in ids;
      }
    }

    /** get_all_users as written (app.py:177-199): int() on every truthy conversation_partner,
        which raises ValueError on the text 'None'. */
    method GetAllUsers() returns (r: Result<seq<Entry>>)
      requires Valid()
      ensures r.ValueError? <==> exists k :: 0 <= k < |ids| && rows[ids[k]].partner == NoPartner
      ensures r.Ok? ==> r.value == AllUsers()
    {
      var acc: seq<Entry> := [];
      var i := 0;
      while i < |ids|
        invariant 0 <= i <= |ids|
        invariant acc == AllUsers()[..i]
        invariant forall k :: 0 <= k < i ==> rows[ids[k]].partner != NoPartner
      {
        var d := ScanRow(rows[ids[i]]);
        if d.ValueError? {
          return ValueError;
        }
        acc := acc + [Entry(ids[i], d.value)];
        i := i + 1;
      }
      return Ok(acc);
    }

    /** get_all_users with safe_int in place of int(), as get_user_data already reads it. */
    method GetAllUsersFixed() returns (r: seq<Entry>)
      requires Valid()
      ensures r == AllUsers()
    {
      r := [];
      var i := 0;
      while i < |ids|
        invariant 0 <= i <= |ids|
        invariant r == AllUsers()[..i]
      {
        var d := ReadRow(rows[ids[i]]);
        r := r + [Entry(ids[i], d)];
        i := i + 1;
      }
    }

    /** find_partner as written (app.py:216-238): a seeker outside the pool gets None; any
        other call goes through get_all_users and fails with it. */
    method FindPartnerAsWritten(seeker: int) returns (r: Result<Option<int>>)
      requires Valid()
      ensures r.ValueError? <==>
        (InPool(Lookup(rows, seeker)) && exists k :: 0 <= k < |ids| && rows[ids[k]].partner == NoPartner)
      ensures r.Ok? ==> r.value == Search(seeker)
    {
      var d := GetUserData(seeker);
      if !InPool(d) {
        return Ok(None);
      }
      var all := GetAllUsers();
      if all.ValueError? {
        return ValueError;
      }
      var found := FirstCandidate(all.value, seeker, d.value);
      return Ok(found);
    }

    /** find_partner reading the table through safe_int: None for a seeker outside the pool,
        otherwise the first user in scan order who qualifies, and None only when nobody does. */
    method FindPartner(seeker: int) returns (r: Option<int>)
      requires Valid()
      ensures r == Search(seeker)
      ensures !InPool(Lookup(rows, seeker)) ==> r.None?
      ensures InPool(Lookup(rows, seeker)) ==>
        (r.None? <==> forall k :: 0 <= k < |ids| ==> !Candidate(AllUsers()[k], seeker, Lookup(rows, seeker).value))
      ensures r.Some? ==>
        && r.value in rows && r.value != seeker
        && (exists k :: 0 <= k < |ids| && ids[k] == r.value
              && Candidate(AllUsers()[k], seeker, Lookup(rows, seeker).value)
              && (forall j :: 0 <= j < k ==> !Candidate(AllUsers()[j], seeker, Lookup(rows, seeker).value)))
    {
      var d := GetUserData(seeker);
      if !InPool(d) {
        return None;
      }
      var all := GetAllUsersFixed();
      r := FirstCandidate(all, seeker, d.value);
      FirstMatchIsFirst(all, seeker, d.value);
    }

    /** join_pool (app.py:362-375): a known user with a complete profile who is not in the
        pool joins it; every other call changes nothing. */
    method JoinPool(uid: int, now: string) returns (o: PoolOutcome)
      requires Valid()
      modifies this
      ensures Valid()
      ensures o == NotRegistered <==> Lookup(old(rows), uid).None?
      ensures o == ProfileIncomplete <==> Lookup(old(rows), uid).Some? && !Lookup(old(rows), uid).value.profileComplete
      ensures o == AlreadyInPool <==> Lookup(old(rows), uid).Some? && Lookup(old(rows), uid).value.profileComplete && Lookup(old(rows), uid).value.inPool
      ensures o in {NotRegistered, ProfileIncomplete, AlreadyInPool, Joined}
      ensures o != Joined ==> rows == old(rows) && ids == old(ids)
      ensures o == Joined ==> Lookup(rows, uid) == Some(Lookup(old(rows), uid).value.(inPool := true))
      ensures o == Joined ==> ids == Requeued(old(ids), uid)
      ensures forall x :: x != uid ==> Lookup(rows, x) == Lookup(old(rows), x)
      ensures old(Symmetric(rows)) ==> Symmetric(rows)
    {
      var d := GetUserData(uid);
      if d.None? {
        return NotRegistered;
      }
      if !d.value.profileComplete {
        return ProfileIncomplete;
      }
      if d.value.inPool {
        return AlreadyInPool;
      }
      ghost var before := rows;
      UpdateUserData(uid, PoolUpdate(true), now);
      SessionsKeptSymmetricIf(before, rows);
      return Joined;
    }

    /** leave_pool (app.py:378-388): a known user in the pool leaves it; every other call
        changes nothing. */
    method LeavePool(uid: int, now: string) returns (o: PoolOutcome)
      requires Valid()
      modifies this
      ensures Valid()
      ensures o == NotRegistered <==> Lookup(old(rows), uid).None?
      ensures o == NotInPool <==> Lookup(old(rows), uid).Some? && !Lookup(old(rows), uid).value.inPool
      ensures o in {NotRegistered, NotInPool, Left}
      ensures o != Left ==> rows == old(rows) && ids == old(ids)
      ensures o == Left ==> Lookup(rows, uid) == Some(Lookup(old(rows), uid).value.(inPool := false))
      ensures o == Left ==> ids == Requeued(old(ids), uid)
      ensures forall x :: x != uid ==> Lookup(rows, x) == Lookup(old(rows), x)
      ensures old(Symmetric(rows)) ==> Symmetric(rows)
    {
      var d := GetUserData(uid);
      if d.None? {
        return NotRegistered;
      }
      if !d.value.inPool {
        return NotInPool;
      }
      ghost var before := rows;
      UpdateUserData(uid, PoolUpdate(false), now);
      SessionsKeptSymmetricIf(before, rows);
      return Left;
    }

    /** handle_gender_preference (app.py:417-425): record the preferred gender, None for "any".
        An unknown caller gets a fresh row. */
    method HandleGenderPreference(uid: int, pref: Option<string>, now: string)
      requires Valid()
      modifies this
      ensures Valid()
      ensures Lookup(rows, uid) == Some(Lookup(old(rows), uid).GetOr(Fresh(now)).(preferredGender := pref))
      ensures ids == Requeued(old(ids), uid)
      ensures forall x :: x != uid ==> Lookup(rows, x) == Lookup(old(rows), x)
      ensures old(Symmetric(rows)) ==> Symmetric(rows)
    {
      ghost var before := rows;
      UpdateUserData(uid, PreferredGenderUpdate(pref), now);
      SessionsKeptSymmetricIf(before, rows);
    }

    /** handle_age_preference (app.py:438-470): record the preferred age group, search, and on
        a match write the seeker's side of the session and then the partner's. in_pool is
        left as it was on both sides. */
    method HandleAgePreference(uid: int, pref: Option<string>, now: string) returns (o: PairOutcome)
      requires Valid()
      modifies this
      ensures Valid()
      ensures var seeker := Lookup(old(rows), uid).GetOr(Fresh(now)).(preferredAgeGroup := pref);
        var preferred, order := old(rows)[uid := seeker], Requeued(old(ids), uid);
        var found := SearchIn(order, preferred, uid);
        && (o == NoMatch <==> found.None? || found.value == 0)
        && (o == NoMatch ==> rows == preferred && ids == order)
        && (o.Paired? ==>
              && o.partner == found.value && o.partner != uid && o.partner in old(rows)
              && rows == BoundPair(preferred, uid, o.partner, now)
              && ids == Requeued(Requeued(order, uid), o.partner))
      ensures old(Symmetric(rows)) && !InConversation(Lookup(old(rows), uid)) && uid != 0 ==> Symmetric(rows)
    {
      ghost var before := rows;
      var u := PreferredAgeUpdate(pref);
      UpdateUserData(uid, u, now);
      OverlayPreferredAge(Lookup(before, uid).GetOr(Fresh(now)), pref);
      ghost var searched := rows;
      SessionsKeptSymmetricIf(before, searched);
      var found := FindPartner(uid);
      if found.None? || found.value == 0 {
        return NoMatch;
      }
      var p := found.value;
      Bind(uid, p, now);
      if Symmetric(before) && !InConversation(Lookup(before, uid)) && uid != 0 {
        assert SessionOf(searched, p) == SessionOf(before, p);
        BoundPairKeepsSymmetric(searched, uid, p, now);
      }
      return Paired(p);
    }

    /** end_conversation (app.py:473-488): a caller outside a conversation changes nothing;
        otherwise the caller's session is reset, and the partner's too when the partner id is
        truthy (a partner without a row gets a fresh one). A second call changes nothing. */
    method EndConversation(uid: int, now: string) returns (o: EndOutcome)
      requires Valid()
      modifies this
      ensures Valid()
      ensures o == NotInConversation <==> !InConversation(Lookup(old(rows), uid))
      ensures o == NotInConversation ==> rows == old(rows) && ids == old(ids)
      ensures o.Ended? ==>
        && Lookup(rows, uid) == Some(Reset(Lookup(old(rows), uid).value))
        && o.partner == Target(Lookup(old(rows), uid).value.partner)
        && (o.partner.Some? && o.partner.value != uid ==>
              Lookup(rows, o.partner.value) == Some(Reset(Lookup(old(rows), o.partner.value).GetOr(Fresh(now)))))
        && forall x :: x != uid && Some(x) != o.partner ==> Lookup(rows, x) == Lookup(old(rows), x)
      ensures o.Ended? ==>
        ids == (if o.partner.Some? then Requeued(Requeued(old(ids), uid), o.partner.value) else Requeued(old(ids), uid))
      ensures !o.NoPartnerFound?
      ensures !InConversation(Lookup(rows, uid))
      ensures old(Symmetric(rows)) ==> Symmetric(rows)
    {
      var d := GetUserData(uid);
      if d.None? || !d.value.inConversation {
        return NotInConversation;
      }
      ghost var before := rows;
      var partner := Target(d.value.partner);
      UpdateUserData(uid, ResetUpdate, now);
      if partner.Some? {
        UpdateUserData(partner.value, ResetUpdate, now);
        if Symmetric(before) {
          EndKeepsSymmetric(before, rows, uid, partner.value);
        }
      } else {
        assert !Linked(before, uid);
      }
      return Ended(partner);
    }

    /** report_user (app.py:491-509): a caller outside a conversation, or one whose partner id
        is falsy, changes nothing; otherwise both sessions are reset as end_conversation does. */
    method ReportUser(uid: int, now: string) returns (o: EndOutcome)
      requires Valid()
      modifies this
      ensures Valid()
      ensures o == NotInConversation <==> !InConversation(Lookup(old(rows), uid))
      ensures o == NoPartnerFound <==> InConversation(Lookup(old(rows), uid)) && Target(Lookup(old(rows), uid).value.partner).None?
      ensures !o.Ended? ==> rows == old(rows) && ids == old(ids)
      ensures o.Ended? ==>
        && o.partner.Some? && o.partner == Target(Lookup(old(rows), uid).value.partner)
        && Lookup(rows, uid) == Some(Reset(Lookup(old(rows), uid).value))
        && (o.partner.value != uid ==>
              Lookup(rows, o.partner.value) == Some(Reset(Lookup(old(rows), o.partner.value).GetOr(Fresh(now)))))
        && forall x :: x != uid && x != o.partner.value ==> Lookup(rows, x) == Lookup(old(rows), x)
      ensures o.Ended? ==> ids == Requeued(Requeued(old(ids), uid), o.partner.value)
      ensures old(Symmetric(rows)) ==> Symmetric(rows)
    {
      var d := GetUserData(uid);
      if d.None? || !d.value.inConversation {
        return NotInConversation;
      }
      var partner := Target(d.value.partner);
      if partner.None? {
        return NoPartnerFound;
      }
      ghost var before := rows;
      UpdateUserData(uid, ResetUpdate, now);
      UpdateUserData(partner.value, ResetUpdate, now);
      if Symmetric(before) {
        EndKeepsSymmetric(before, rows, uid, partner.value);
      }
      return Ended(partner);
    }

    /** The pairing step of handle_age_preference (app.py:456-459): two update_user_data
        calls, the seeker's side of the session and then the partner's. */
    method Bind(seeker: int, partner: int, now: string)
      requires Valid() && seeker in rows
      modifies this
      ensures Valid()
      ensures rows == BoundPair(old(rows), seeker, partner, now)
      ensures ids == Requeued(Requeued(old(ids), seeker), partner)
    {
      ghost var r0 := rows;
      var first := BindUpdate(partner, true);
      UpdateUserData(seeker, first, now);
      ghost var r1 := rows;
      var second := BindUpdate(seeker, false);
      UpdateUserData(partner, second, now);
      BoundPairBySteps(r0, r1, rows, seeker, partner, now, first, second);
    }

    /** The billing step of handle_message (app.py:615-618 and its photo and video twins):
        two update_user_data calls, the payer's debit and then the payee's credit. */
    method Transfer(payer: int, payee: int, cost: nat, now: string)
      requires Valid() && payer in rows
      modifies this
      ensures Valid()
      ensures rows == Transferred(old(rows), payer, payee, cost, now)
      ensures ids == Requeued(Requeued(old(ids), payer), payee)
    {
      var payeeData := GetUserData(payee);
      var payeePoints := if payeeData.Some? then payeeData.value.points else 0;
      ghost var r0 := rows;
      assert payeePoints == PointsOf(r0, payee);
      var debit := PointsUpdate(rows[payer].points - cost);
      UpdateUserData(payer, debit, now);
      ghost var r1 := rows;
      var credit := PointsUpdate(payeePoints + cost);
      UpdateUserData(payee, credit, now);
      TransferredBySteps(r0, r1, rows, payer, payee, cost, now, debit, credit);
    }

    /** The conversation branch of handle_message (app.py:598-649). An initiator pays Cost(unit)
        to the partner, or is refused with nothing changed when the points fall short; a
        responder sends for free. The partner's balance is the one read before the sender's
        debit, and a partner without a row gets a fresh one holding the credit. */
    method HandleMessage(uid: int, unit: Unit, now: string) returns (o: SendOutcome)
      requires Valid()
      modifies this
      ensures Valid()
      ensures o == NotChatting <==> !InConversation(Lookup(old(rows), uid))
      ensures o == PartnerMissing <==> InConversation(Lookup(old(rows), uid)) && Target(Lookup(old(rows), uid).value.partner).None?
      ensures o == Ignored <==> InConversation(Lookup(old(rows), uid)) && Target(Lookup(old(rows), uid).value.partner).Some? && unit == Text("")
      ensures o == InsufficientPoints <==>
        InConversation(Lookup(old(rows), uid)) && Target(Lookup(old(rows), uid).value.partner).Some? && unit != Text("")
        && Lookup(old(rows), uid).value.isInitiator && old(rows)[uid].points < Cost(unit)
      ensures o.Forwarded? ==>
        && Target(Lookup(old(rows), uid).value.partner) == Some(o.to)
        && o.charged == (if Lookup(old(rows), uid).value.isInitiator then Cost(unit) else 0)
      ensures !(o.Forwarded? && o.charged > 0) ==> rows == old(rows) && ids == old(ids)
      ensures o.Forwarded? && o.charged > 0 ==>
        && uid in old(rows) && old(rows)[uid].points >= o.charged
        && rows == Transferred(old(rows), uid, o.to, o.charged, now)
        && ids == Requeued(Requeued(old(ids), uid), o.to)
      ensures old(Symmetric(rows)) ==> Symmetric(rows)
      ensures old(NonNegative(rows)) ==> NonNegative(rows)
    {
      var d := GetUserData(uid);
      if d.None? || !d.value.inConversation {
        return NotChatting;
      }
      var partner := Target(d.value.partner);
      if partner.None? {
        return PartnerMissing;
      }
      var p := partner.value;
      if unit == Text("") {
        return Ignored;
      }
      var partnerData := GetUserData(p);
      if !d.value.isInitiator {
        return Forwarded(p, 0);
      }
      var cost := Cost(unit);
      var userPoints := d.value.points;
      if userPoints < cost {
        return InsufficientPoints;
      }
      ghost var before := rows;
      Transfer(uid, p, cost, now);
      TransferKeepsSessions(before, uid, p, cost, now);
      SessionsKeptSymmetricIf(before, rows);
      TransferKeepsNonNegative(before, uid, p, cost, now);
      return Forwarded(p, cost);
    }
  }

  /** Symmetry survives any change that leaves every session as it was. */
  lemma SessionsKeptSymmetricIf(rows: map<int, UserData>, rows': map<int, UserData>)
    requires forall x :: SessionOf(rows', x) == SessionOf(rows, x)
    ensures Symmetric(rows) ==> Symmetric(rows')
  {
    if Symmetric(rows) {
      SessionsKeptSymmetric(rows, rows');
    }
  }

  function InPool(d: Option<UserData>): bool {
    d.Some? && d.value.inPool
  }
}
