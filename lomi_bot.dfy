/** lomi.py: the variant that keeps its users in one JSON object, user id to a dict of
    whatever keys have been written so far. update_user_data loads the object, merges the
    update into one user's dict (creating it empty when the id is new) and saves it back. */
module LomiBot {
  import opened Common

  /** get_user_data: the user's dict, or the empty dict for an unknown id. */
  function Get(data: map<int, Fields>, id: int): Fields {
    if id in data then data[id] else NoFields
  }

  /** `if not user_data`: an absent user and a present empty dict are both unregistered. */
  predicate Known(data: map<int, Fields>, id: int) {
    Get(data, id) != NoFields
  }

  /** `user_data.get('points', 0)` */
  function PointsOf(data: map<int, Fields>, id: int): int {
    Get(data, id).points.GetOr(0)
  }

  /** `user_data.get(key)` read for its truth value, for the flags the handlers test. */
  predicate InPool(r: Fields) { r.inPool.GetOr(false) }
  predicate InConversation(r: Fields) { r.inConversation.GetOr(false) }
  predicate ProfileComplete(r: Fields) { r.profileComplete.GetOr(false) }
  predicate IsInitiator(r: Fields) { r.isInitiator.GetOr(false) }

  /** The partner a handler acts on: `if partner_id:` holds for a stored id other than 0. */
  function Target(r: Fields): Option<int> {
    var p := Flatten(r.partner);
    if p.Some? && p.value != 0 then p else None
  }

  // ---------------------------------------------------------------------------
  // Key order

  predicate Distinct(s: seq<int>) {
    forall i, j :: 0 <= i < j < |s| ==> s[i] != s[j]
  }

  /** The key order after `data[user_id_str] = {}` for a new id: Python dicts, and the JSON
      object they are saved as, keep insertion order, and a new key goes last. Updating an
      existing key keeps its place. */
  function WithKey(keys: seq<int>, id: int): (r: seq<int>)
    ensures id in keys ==> r == keys
    ensures id !in keys ==> r == keys + [id]
    ensures forall y :: y in r <==> y in keys || y == id
    ensures Distinct(keys) ==> Distinct(r)
  {
    if id in keys then keys else keys + [id]
  }

  // ---------------------------------------------------------------------------
  // find_partner

  datatype Entry = Entry(id: int, record: Fields)

  /** `all_users.items()` in key order. */
  function Entries(keys: seq<int>, data: map<int, Fields>): (r: seq<Entry>)
    requires forall i :: 0 <= i < |keys| ==> keys[i] in data
    ensures |r| == |keys|
    ensures forall i :: 0 <= i < |keys| ==> r[i] == Entry(keys[i], data[keys[i]])
  {
    if keys == [] then [] else [Entry(keys[0], data[keys[0]])] + Entries(keys[1..], data)
  }

  /** find_partner's test of one user (lomi.py:95-105): not the seeker, in the pool, not in a
      conversation, with a complete profile, and admitted by each preference the seeker set;
      an absent key reads as None. */
  predicate Candidate(e: Entry, seeker: int, prefs: Fields) {
    e.id != seeker && InPool(e.record) && !InConversation(e.record) && ProfileComplete(e.record)
    && Admits(Flatten(prefs.preferredGender), Flatten(e.record.gender))
    && Admits(Flatten(prefs.preferredAgeGroup), Flatten(e.record.ageGroup))
  }

  /** The id of the first candidate in key order. */
  function FirstMatch(all: seq<Entry>, seeker: int, prefs: Fields): Option<int> {
    if all == [] then None
    else if Candidate(all[0], seeker, prefs) then Some(all[0].id)
    else FirstMatch(all[1..], seeker, prefs)
  }

  /** FirstMatch finds a candidate exactly when there is one, and the one it finds comes
      before every other. */
  lemma {:induction false} FirstMatchIsFirst(all: seq<Entry>, seeker: int, prefs: Fields)
    ensures FirstMatch(all, seeker, prefs).None? <==>
      forall k :: 0 <= k < |all| ==> !Candidate(all[k], seeker, prefs)
    ensures FirstMatch(all, seeker, prefs).Some? ==>
      exists k :: 0 <= k < |all| && all[k].id == FirstMatch(all, seeker, prefs).value
        && Candidate(all[k], seeker, prefs)
        && forall j :: 0 <= j < k ==> !Candidate(all[j], seeker, prefs)
  {
    if all != [] && !Candidate(all[0], seeker, prefs) {
      var rest := all[1..];
      FirstMatchIsFirst(rest, seeker, prefs);
      assert forall k :: 1 <= k < |all| ==> all[k] == rest[k - 1];
      if FirstMatch(rest, seeker, prefs).Some? {
        var k :| 0 <= k < |rest| && rest[k].id == FirstMatch(rest, seeker, prefs).value
          && Candidate(rest[k], seeker, prefs)
          && forall j :: 0 <= j < k ==> !Candidate(rest[j], seeker, prefs);
        assert all[k + 1] == rest[k];
      }
    }
  }

  /** What find_partner returns: None unless the seeker is in the pool, otherwise the first
      candidate in key order. */
  function SearchIn(keys: seq<int>, data: map<int, Fields>, seeker: int): Option<int>
    requires forall i :: 0 <= i < |keys| ==> keys[i] in data
  {
    if InPool(Get(data, seeker)) then FirstMatch(Entries(keys, data), seeker, Get(data, seeker)) else None
  }

  // ---------------------------------------------------------------------------
  // Sessions

  /** The partner of a user who is in a conversation; None for anyone else. */
  function SessionOf(data: map<int, Fields>, id: int): Option<Option<int>> {
    var r := Get(data, id);
    if InConversation(r) then Some(Flatten(r.partner)) else None
  }

  /** A user in a conversation names a truthy partner other than themself, who is in a
      conversation and names them back. */
  ghost predicate Linked(data: map<int, Fields>, a: int) {
    SessionOf(data, a).Some? ==>
      var b := SessionOf(data, a).value;
      b.Some? && b.value != 0 && b.value != a && SessionOf(data, b.value) == Some(Some(a))
  }

  ghost predicate Symmetric(data: map<int, Fields>) {
    forall a :: Linked(data, a)
  }

  ghost predicate NonNegative(data: map<int, Fields>) {
    forall id :: id in data ==> data[id].points.GetOr(0) >= 0
  }

  /** Symmetry survives any change that leaves every session as it was. */
  lemma SessionsKeptSymmetric(data: map<int, Fields>, data': map<int, Fields>)
    requires forall x :: SessionOf(data', x) == SessionOf(data, x)
    ensures Symmetric(data) ==> Symmetric(data')
  {
    if Symmetric(data) {
      forall a ensures Linked(data', a) {
        assert Linked(data, a);
      }
    }
  }

  /** Ending the session of `u` and of its partner `p` keeps every other link. */
  lemma {:induction false} EndKeepsSymmetric(data: map<int, Fields>, data': map<int, Fields>, u: int, p: int)
    requires Symmetric(data)
    requires SessionOf(data, u).Some? && Target(Get(data, u)) == Some(p)
    requires SessionOf(data', u).None? && SessionOf(data', p).None?
    requires forall x :: x != u && x != p ==> SessionOf(data', x) == SessionOf(data, x)
    ensures Symmetric(data')
  {
    assert Linked(data, u);
    forall a | SessionOf(data', a).Some? ensures Linked(data', a) {
      assert a != u && a != p;
      assert Linked(data, a);
      var b := SessionOf(data, a).value.value;
      assert b != u;
      assert b != p;
    }
  }

  /** Binding two users who were in no session to each other keeps every other link. */
  lemma {:induction false} BindKeepsSymmetric(data: map<int, Fields>, data': map<int, Fields>, u: int, p: int)
    requires Symmetric(data)
    requires u != p && u != 0 && p != 0
    requires SessionOf(data, u).None? && SessionOf(data, p).None?
    requires SessionOf(data', u) == Some(Some(p)) && SessionOf(data', p) == Some(Some(u))
    requires forall x :: x != u && x != p ==> SessionOf(data', x) == SessionOf(data, x)
    ensures Symmetric(data')
  {
    forall a | SessionOf(data', a).Some? && a != u && a != p ensures Linked(data', a) {
      assert Linked(data, a);
      var b := SessionOf(data, a).value.value;
      assert b != u && b != p;
    }
    forall a ensures Linked(data', a) {
    }
  }

  // ---------------------------------------------------------------------------
  // Multi-write steps as functions of the store

  /** The store after handle_age_preference pairs `seeker` with `partner` (lomi.py:357-376):
      the seeker's dict is bound first, then the partner's, read after that write. */
  function BoundPair(data: map<int, Fields>, seeker: int, partner: int): map<int, Fields> {
    var d1 := data[seeker := Override(Get(data, seeker), BindUpdate(partner, true))];
    d1[partner := Override(Get(d1, partner), BindUpdate(seeker, false))]
  }

  /** Pairing two distinct users, neither of them in a conversation, keeps the links
      symmetric. */
  lemma BoundPairKeepsSymmetric(data: map<int, Fields>, seeker: int, partner: int)
    requires Symmetric(data)
    requires seeker != partner && seeker != 0 && partner != 0
    requires SessionOf(data, seeker).None? && SessionOf(data, partner).None?
    ensures Symmetric(BoundPair(data, seeker, partner))
  {
    var data' := BoundPair(data, seeker, partner);
    assert forall x :: x != seeker && x != partner ==> SessionOf(data', x) == SessionOf(data, x);
    BindKeepsSymmetric(data, data', seeker, partner);
  }

  /** The store after the payer of a message pays `cost` (lomi.py:606-614, 645-653, 681-689): the payer's
      points become its balance minus `cost`, then the payee's become the balance read
      before the debit plus `cost`. */
  function Transferred(data: map<int, Fields>, payer: int, payee: int, cost: nat): map<int, Fields> {
    var d1 := data[payer := Override(Get(data, payer), PointsUpdate(PointsOf(data, payer) - cost))];
    d1[payee := Override(Get(d1, payee), PointsUpdate(PointsOf(data, payee) + cost))]
  }

  /** A payment between two different users moves `cost` points from one to the other and
      touches no one else. */
  lemma TransferConserves(data: map<int, Fields>, payer: int, payee: int, cost: nat)
    requires payer != payee
    ensures var data' := Transferred(data, payer, payee, cost);
      && PointsOf(data', payer) == PointsOf(data, payer) - cost
      && PointsOf(data', payee) == PointsOf(data, payee) + cost
      && PointsOf(data', payer) + PointsOf(data', payee) == PointsOf(data, payer) + PointsOf(data, payee)
      && (forall x :: x != payer && x != payee ==> Get(data', x) == Get(data, x))
  {
  }

  /** A payment the payer can afford leaves no balance negative. */
  lemma TransferKeepsNonNegative(data: map<int, Fields>, payer: int, payee: int, cost: nat)
    ensures NonNegative(data) && PointsOf(data, payer) >= cost ==> NonNegative(Transferred(data, payer, payee, cost))
  {
  }

  /** A payment changes no session. */
  lemma TransferKeepsSessions(data: map<int, Fields>, payer: int, payee: int, cost: nat)
    ensures forall x :: SessionOf(Transferred(data, payer, payee, cost), x) == SessionOf(data, x)
  {
  }

  /** The store after `u` and the partner `p` are both reset (lomi.py:403-415, 444-455). */
  function EndedPair(data: map<int, Fields>, u: int, p: int): map<int, Fields> {
    var d1 := data[u := Override(Get(data, u), ResetUpdate)];
    d1[p := Override(Get(d1, p), ResetUpdate)]
  }

  // ---------------------------------------------------------------------------
  // Handler outcomes

  datatype PoolOutcome = NotRegistered | ProfileIncomplete | AlreadyInPool | Joined | NotInPool | Left

  datatype PairOutcome = NoMatch | Paired(partner: int)

  datatype EndOutcome = NotInConversation | NoPartnerFound | Ended(partner: Option<int>)

  datatype SendOutcome = NotChatting | PartnerMissing | Ignored | InsufficientPoints | Forwarded(to: int, charged: nat)

  /** The JSON user store. */
  class UserStore {
    /** The user ids in the order of the JSON object's keys. */
    var keys: seq<int>
    var data: map<int, Fields>

    ghost predicate Valid()
      reads this
    {
      Distinct(keys) && (forall id :: id in keys <==> id in data)
      && (forall i :: 0 <= i < |keys| ==> keys[i] in data)
    }

    constructor ()
      ensures Valid() && keys == [] && data == map[]
    {
      keys := [];
      data := map[];
    }

    function GetUserData(id: int): Fields
      reads this
    {
      Get(data, id)
    }

    function Search(seeker: int): Option<int>
      reads this
      requires Valid()
    {
      SearchIn(keys, data, seeker)
    }

    /** update_user_data (lomi.py:74-80): a new id gets an empty dict at the end of the key
        order; then every key of the update overwrites the user's dict and the rest stay. */
    method UpdateUserData(id: int, u: Fields)
      requires Valid()
      modifies this
      ensures Valid()
      ensures data == old(data)[id := Override(Get(old(data), id), u)]
      ensures keys == WithKey(old(keys), id)
    {
      if id !in data {
        data := data[id := NoFields];
        keys := keys + [id];
      }
      data := data[id := Override(data[id], u)];
      forall i | 0 <= i < |keys| ensures keys[i] in data {
        assert keys[i] in keys;
      }
    }

    /** find_partner (lomi.py:83-109): None for a seeker outside the pool, otherwise the first
        user in key order who qualifies, and None only when nobody does. */
    method FindPartner(seeker: int) returns (r: Option<int>)
      requires Valid()
      ensures r == Search(seeker)
      ensures !InPool(Get(data, seeker)) ==> r.None?
      ensures InPool(Get(data, seeker)) ==>
        (r.None? <==> forall k :: 0 <= k < |keys| ==> !Candidate(Entry(keys[k], data[keys[k]]), seeker, Get(data, seeker)))
      ensures r.Some? ==>
        && r.value in data && r.value != seeker
        && (exists k :: 0 <= k < |keys| && keys[k] == r.value
              && Candidate(Entry(keys[k], data[keys[k]]), seeker, Get(data, seeker))
              && (forall j :: 0 <= j < k ==> !Candidate(Entry(keys[j], data[keys[j]]), seeker, Get(data, seeker))))
    {
      var prefs := GetUserData(seeker);
      if !InPool(prefs) {
        return None;
      }
      ghost var all := Entries(keys, data);
      FirstMatchIsFirst(all, seeker, prefs);
      var i := 0;
      while i < |keys|
        invariant 0 <= i <= |keys|
        invariant FirstMatch(all[i..], seeker, prefs) == FirstMatch(all, seeker, prefs)
      {
        assert all[i..][1..] == all[i + 1..];
        var e := Entry(keys[i], data[keys[i]]);
        if Candidate(e, seeker, prefs) {
          return Some(keys[i]);
        }
        i := i + 1;
      }
      return None;
    }

    /** join_pool (lomi.py:243-260): a registered user with a complete profile who is not in
        the pool joins it; every other call changes nothing. */
    method JoinPool(uid: int) returns (o: PoolOutcome)
      requires Valid()
      modifies this
      ensures Valid()
      ensures o == NotRegistered <==> !Known(old(data), uid)
      ensures o == ProfileIncomplete <==> Known(old(data), uid) && !ProfileComplete(Get(old(data), uid))
      ensures o == AlreadyInPool <==>
        Known(old(data), uid) && ProfileComplete(Get(old(data), uid)) && InPool(Get(old(data), uid))
      ensures o in {NotRegistered, ProfileIncomplete, AlreadyInPool, Joined}
      ensures o != Joined ==> data == old(data) && keys == old(keys)
      ensures o == Joined ==> data == old(data)[uid := Get(old(data), uid).(inPool := Some(true))] && keys == old(keys)
      ensures old(Symmetric(data)) ==> Symmetric(data)
    {
      var d := GetUserData(uid);
      if d == NoFields {
        return NotRegistered;
      }
      if !ProfileComplete(d) {
        return ProfileIncomplete;
      }
      if InPool(d) {
        return AlreadyInPool;
      }
      ghost var before := data;
      var u := PoolUpdate(true);
      UpdateUserData(uid, u);
      SessionsKeptSymmetric(before, data);
      return Joined;
    }

    /** leave_pool (lomi.py:263-275): a registered user in the pool leaves it; every other
        call changes nothing. */
    method LeavePool(uid: int) returns (o: PoolOutcome)
      requires Valid()
      modifies this
      ensures Valid()
      ensures o == NotRegistered <==> !Known(old(data), uid)
      ensures o == NotInPool <==> Known(old(data), uid) && !InPool(Get(old(data), uid))
      ensures o in {NotRegistered, NotInPool, Left}
      ensures o != Left ==> data == old(data) && keys == old(keys)
      ensures o == Left ==> data == old(data)[uid := Get(old(data), uid).(inPool := Some(false))] && keys == old(keys)
      ensures old(Symmetric(data)) ==> Symmetric(data)
    {
      var d := GetUserData(uid);
      if d == NoFields {
        return NotRegistered;
      }
      if !InPool(d) {
        return NotInPool;
      }
      ghost var before := data;
      var u := PoolUpdate(false);
      UpdateUserData(uid, u);
      SessionsKeptSymmetric(before, data);
      return Left;
    }

    /** handle_gender_preference (lomi.py:315-323): record the preferred gender, None for "any". */
    method HandleGenderPreference(uid: int, pref: Option<string>)
      requires Valid()
      modifies this
      ensures Valid()
      ensures data == old(data)[uid := Get(old(data), uid).(preferredGender := Some(pref))]
      ensures keys == WithKey(old(keys), uid)
      ensures old(Symmetric(data)) ==> Symmetric(data)
    {
      ghost var before := data;
      var u := PreferredGenderUpdate(pref);
      UpdateUserData(uid, u);
      SessionsKeptSymmetric(before, data);
    }

    /** handle_age_preference (lomi.py:343-390): record the preferred age group, search, and
        on a match bind the seeker as initiator and then the partner as responder. in_pool is
        left as it was on both sides. */
    method HandleAgePreference(uid: int, pref: Option<string>) returns (o: PairOutcome)
      requires Valid()
      modifies this
      ensures Valid()
      ensures var preferred := old(data)[uid := Get(old(data), uid).(preferredAgeGroup := Some(pref))];
        var order := WithKey(old(keys), uid);
        var found := SearchIn(order, preferred, uid);
        && (o == NoMatch <==> found.None? || found.value == 0)
        && (o == NoMatch ==> data == preferred && keys == order)
        && (o.Paired? ==>
              && o.partner == found.value && o.partner != uid && o.partner in old(data)
              && data == BoundPair(preferred, uid, o.partner)
              && keys == order)
      ensures old(Symmetric(data)) && SessionOf(old(data), uid).None? && uid != 0 ==> Symmetric(data)
    {
      ghost var before := data;
      var u := PreferredAgeUpdate(pref);
      UpdateUserData(uid, u);
      ghost var searched := data;
      SessionsKeptSymmetric(before, searched);
      var found := FindPartner(uid);
      if found.None? || found.value == 0 {
        return NoMatch;
      }
      var p := found.value;
      var first := BindUpdate(p, true);
      UpdateUserData(uid, first);
      var second := BindUpdate(uid, false);
      UpdateUserData(p, second);
      if Symmetric(before) && SessionOf(before, uid).None? && uid != 0 {
        assert SessionOf(searched, p) == SessionOf(before, p);
        BoundPairKeepsSymmetric(searched, uid, p);
      }
      return Paired(p);
    }

    /** end_conversation (lomi.py:393-422): a caller outside a conversation changes nothing;
        otherwise the caller's session is reset, and the partner's too when the partner id is
        truthy. A second call changes nothing. */
    method EndConversation(uid: int) returns (o: EndOutcome)
      requires Valid()
      modifies this
      ensures Valid()
      ensures o == NotInConversation <==> !InConversation(Get(old(data), uid))
      ensures o == NotInConversation ==> data == old(data) && keys == old(keys)
      ensures o.Ended? ==>
        && o.partner == Target(Get(old(data), uid))
        && (o.partner.None? ==> data == old(data)[uid := Override(Get(old(data), uid), ResetUpdate)])
        && (o.partner.Some? ==> data == EndedPair(old(data), uid, o.partner.value))
      ensures o.Ended? && o.partner.Some? ==> keys == WithKey(old(keys), o.partner.value)
      ensures o.Ended? && o.partner.None? ==> keys == old(keys)
      ensures !o.NoPartnerFound?
      ensures !InConversation(Get(data, uid))
      ensures old(Symmetric(data)) ==> Symmetric(data)
    {
      var d := GetUserData(uid);
      if !InConversation(d) {
        return NotInConversation;
      }
      ghost var before := data;
      var partner := Target(d);
      var u := ResetUpdate;
      UpdateUserData(uid, u);
      if partner.Some? {
        UpdateUserData(partner.value, u);
        if Symmetric(before) {
          EndKeepsSymmetric(before, data, uid, partner.value);
        }
      } else {
        assert !Linked(before, uid);
      }
      return Ended(partner);
    }

    /** report_user (lomi.py:425-460): a caller outside a conversation, or one whose partner
        id is falsy, changes nothing; otherwise both sessions are reset. */
    method ReportUser(uid: int) returns (o: EndOutcome)
      requires Valid()
      modifies this
      ensures Valid()
      ensures o == NotInConversation <==> !InConversation(Get(old(data), uid))
      ensures o == NoPartnerFound <==> InConversation(Get(old(data), uid)) && Target(Get(old(data), uid)).None?
      ensures !o.Ended? ==> data == old(data) && keys == old(keys)
      ensures o.Ended? ==>
        && o.partner.Some? && o.partner == Target(Get(old(data), uid))
        && data == EndedPair(old(data), uid, o.partner.value)
      ensures o.Ended? ==> keys == WithKey(old(keys), o.partner.value)
      ensures old(Symmetric(data)) ==> Symmetric(data)
    {
      var d := GetUserData(uid);
      if !InConversation(d) {
        return NotInConversation;
      }
      var partner := Target(d);
      if partner.None? {
        return NoPartnerFound;
      }
      ghost var before := data;
      var u := ResetUpdate;
      UpdateUserData(uid, u);
      UpdateUserData(partner.value, u);
      if Symmetric(before) {
        EndKeepsSymmetric(before, data, uid, partner.value);
      }
      return Ended(partner);
    }

    /** The conversation branch of handle_message (lomi.py:581-709). An initiator pays
        Cost(unit) to the partner, or is refused with nothing changed when the points fall
        short; a responder sends for free. */
    method HandleMessage(uid: int, unit: Unit) returns (o: SendOutcome)
      requires Valid()
      modifies this
      ensures Valid()
      ensures o == NotChatting <==> !InConversation(Get(old(data), uid))
      ensures o == PartnerMissing <==> InConversation(Get(old(data), uid)) && Target(Get(old(data), uid)).None?
      ensures o == Ignored <==>
        InConversation(Get(old(data), uid)) && Target(Get(old(data), uid)).Some? && unit == Text("")
      ensures o == InsufficientPoints <==>
        InConversation(Get(old(data), uid)) && Target(Get(old(data), uid)).Some? && unit != Text("")
        && IsInitiator(Get(old(data), uid)) && PointsOf(old(data), uid) < Cost(unit)
      ensures o.Forwarded? ==>
        && Target(Get(old(data), uid)) == Some(o.to)
        && o.charged == (if IsInitiator(Get(old(data), uid)) then Cost(unit) else 0)
      ensures !(o.Forwarded? && o.charged > 0) ==> data == old(data) && keys == old(keys)
      ensures o.Forwarded? && o.charged > 0 ==>
        && PointsOf(old(data), uid) >= o.charged
        && data == Transferred(old(data), uid, o.to, o.charged)
        && keys == WithKey(old(keys), o.to)
      ensures old(Symmetric(data)) ==> Symmetric(data)
      ensures old(NonNegative(data)) ==> NonNegative(data)
    {
      var d := GetUserData(uid);
      if !InConversation(d) {
        return NotChatting;
      }
      var partner := Target(d);
      if partner.None? {
        return PartnerMissing;
      }
      var p := partner.value;
      var partnerData := GetUserData(p);
      if unit == Text("") {
        return Ignored;
      }
      if !IsInitiator(d) {
        return Forwarded(p, 0);
      }
      var cost := Cost(unit);
      var userPoints := d.points.GetOr(0);
      if userPoints < cost {
        return InsufficientPoints;
      }
      ghost var before := data;
      var debit := PointsUpdate(userPoints - cost);
      UpdateUserData(uid, debit);
      var partnerPoints := partnerData.points.GetOr(0);
      var credit := PointsUpdate(partnerPoints + cost);
      UpdateUserData(p, credit);
      TransferKeepsSessions(before, uid, p, cost);
      SessionsKeptSymmetric(before, data);
      TransferKeepsNonNegative(before, uid, p, cost);
      return Forwarded(p, cost);
    }
  }
}
