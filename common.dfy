/** Definitions shared by the four variants of the chat-pairing bot: optional values, the
    failure of Python's int(), the billable units and their prices, and the partial user
    record (a Python dict whose keys may be absent) that every update_user_data merges. */
module Common {

  datatype Option<+T> = None | Some(value: T) {
    /** dict.get(key, default) on a key that is absent (None) or present (Some). */
    function GetOr(default: T): T {
      match this
      case Some(v) => v
      case None => default
    }
  }

  /** The value of a conversion that goes through Python's int(), which raises ValueError
      on text that is not an integer literal. */
  datatype Result<+T> = Ok(value: T) | ValueError

  /** What a user in a conversation sends: a text message, a photo or a video. */
  datatype Unit = Text(text: string) | Photo | Video

  /** Flat prices of a forwarded photo and video (app.py:622, app.py:637, lomi.py:638, lomi.py:674). */
  const PhotoCost: nat := 150
  const VideoCost: nat := 250

  /** What an initiator pays for one unit: a point per character of text, a flat price per medium. */
  function Cost(u: Unit): nat {
    match u
    case Text(t) => |t|
    case Photo => PhotoCost
    case Video => VideoCost
  }

  /** Python truthiness of an optional string: None and "" are false. */
  predicate IsSet(s: Option<string>) {
    s.Some? && s.value != ""
  }

  /** A seeker's preference admits a candidate's attribute when it is unset (None or "") or
      equal to the attribute (find_partner, app.py:233-236 and lomi.py:100-105). */
  predicate Admits(pref: Option<string>, actual: Option<string>) {
    !IsSet(pref) || actual == pref
  }

  /** dict.get on a key whose value may itself be None: absent and None read alike. */
  function Flatten<T>(o: Option<Option<T>>): Option<T> {
    match o
    case Some(v) => v
    case None => None
  }

  /** A user record as a Python dict with optional keys. lomi.py stores users in exactly this
      shape (JSON objects), and every variant's update_user_data receives its `updates` in it.
      None means that the key is absent; `partner` and the string fields may also hold a
      present None (JSON null). */
  datatype Fields = Fields(
    points: Option<int>,
    profileComplete: Option<bool>,
    inPool: Option<bool>,
    inConversation: Option<bool>,
    partner: Option<Option<int>>,
    isInitiator: Option<bool>,
    joinedDate: Option<string>,
    username: Option<Option<string>>,
    gender: Option<Option<string>>,
    ageGroup: Option<Option<string>>,
    nickname: Option<Option<string>>,
    preferredGender: Option<Option<string>>,
    preferredAgeGroup: Option<Option<string>>)

  /** The empty dict. */
  const NoFields := Fields(None, None, None, None, None, None, None, None, None, None, None, None, None)

  /** `r.update(u)`: every key present in `u` takes u's value; every other key keeps r's. */
  function Override(r: Fields, u: Fields): Fields {
    Fields(
      if u.points.Some? then u.points else r.points,
      if u.profileComplete.Some? then u.profileComplete else r.profileComplete,
      if u.inPool.Some? then u.inPool else r.inPool,
      if u.inConversation.Some? then u.inConversation else r.inConversation,
      if u.partner.Some? then u.partner else r.partner,
      if u.isInitiator.Some? then u.isInitiator else r.isInitiator,
      if u.joinedDate.Some? then u.joinedDate else r.joinedDate,
      if u.username.Some? then u.username else r.username,
      if u.gender.Some? then u.gender else r.gender,
      if u.ageGroup.Some? then u.ageGroup else r.ageGroup,
      if u.nickname.Some? then u.nickname else r.nickname,
      if u.preferredGender.Some? then u.preferredGender else r.preferredGender,
      if u.preferredAgeGroup.Some? then u.preferredAgeGroup else r.preferredAgeGroup)
  }

  /** Applying the same update twice is the same as applying it once. */
  lemma OverrideIdempotent(r: Fields, u: Fields)
    ensures Override(Override(r, u), u) == Override(r, u)
  {
  }

  /** Two updates in a row merge into one update, the later winning on shared keys. */
  lemma OverrideSequence(r: Fields, u: Fields, v: Fields)
    ensures Override(Override(r, u), v) == Override(r, Override(u, v))
  {
  }

  /** The updates the handlers issue. */
  function PointsUpdate(points: int): Fields {
    NoFields.(points := Some(points))
  }

  function PoolUpdate(inPool: bool): Fields {
    NoFields.(inPool := Some(inPool))
  }

  /** {'in_conversation': True, 'conversation_partner': partner, 'is_initiator': initiator} */
  function BindUpdate(partner: int, initiator: bool): Fields {
    NoFields.(inConversation := Some(true), partner := Some(Some(partner)), isInitiator := Some(initiator))
  }

  /** {'in_conversation': False, 'conversation_partner': None, 'is_initiator': False} */
  const ResetUpdate: Fields :=
    NoFields.(inConversation := Some(false), partner := Some(None), isInitiator := Some(false))

  function PreferredGenderUpdate(pref: Option<string>): Fields {
    NoFields.(preferredGender := Some(pref))
  }

  function PreferredAgeUpdate(pref: Option<string>): Fields {
    NoFields.(preferredAgeGroup := Some(pref))
  }
}
