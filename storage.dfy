/** The browser's persisted key-value store and the user record kept in it.

    The views keep four session keys: "token", "user" (the user record as
    text), "user_id" (String(id)) and "user_type". The record is written with
    JSON.stringify and read back with JSON.parse; here Encode and Decode stand
    for that pair: Decode rejects malformed text with None, and
    Decode(Encode(u)) == Some(u) is proved below. */
module Storage {
  import opened JsText

  type Store = map<string, string>

  /** localStorage.getItem(key) */
  function GetItem(store: Store, key: string): (r: Option<string>)
    ensures r.Some? <==> key in store
    ensures r.Some? ==> r.value == store[key]
  {
    if key in store then Some(store[key]) else None
  }

  /** `if (raw)`: a stored text counts only when it is present and non-empty. */
  predicate Present(raw: Option<string>) {
    raw.Some? && raw.value != ""
  }

  const TokenKey := "token"
  const UserKey := "user"
  const UserIdKey := "user_id"
  const UserTypeKey := "user_type"

  /** The four keys the login writes and the logout removes. */
  const SessionKeys: set<string> := {TokenKey, UserKey, UserIdKey, UserTypeKey}

  /** The fields of a user record that the views read; an absent field is None. */
  datatype UserRecord = UserRecord(
    id: Option<int>,
    username: Option<string>,
    firstName: Option<string>,
    lastName: Option<string>,
    email: Option<string>,
    dni: Option<string>,
    userType: Option<string>,
    avatarUrl: Option<string>)

  // ---------------------------------------------------------------------
  // Text encoding of a record: each field is 'N' (absent) or 'S', the
  // escaped text and ';'. Inside a text, '\' and ';' are preceded by '\'.
  // ---------------------------------------------------------------------

  function Escape(s: string): string {
    if s == [] then []
    else (if s[0] == '\\' || s[0] == ';' then ['\\', s[0]] else [s[0]]) + Escape(s[1..])
  }

  /** Reads an escaped text up to its terminating ';' and returns the text
      and what follows the ';'. */
  function ReadEscaped(s: string): Option<(string, string)>
    decreases |s|
  {
    if s == [] then None
    else if s[0] == ';' then Some(("", s[1..]))
    else if s[0] == '\\' then
      if |s| < 2 then None
      else match ReadEscaped(s[2..])
        case None => None
        case Some(p) => Some(([s[1]] + p.0, p.1))
    else match ReadEscaped(s[1..])
      case None => None
      case Some(p) => Some(([s[0]] + p.0, p.1))
  }

  lemma {:induction false} ReadEscapedOfEscape(v: string, rest: string)
    ensures ReadEscaped(Escape(v) + ";" + rest) == Some((v, rest))
  {
    var t := Escape(v) + ";" + rest;
    if v == [] {
      assert t == [';'] + rest;
    } else {
      var tail := Escape(v[1..]) + ";" + rest;
      ReadEscapedOfEscape(v[1..], rest);
      if v[0] == '\\' || v[0] == ';' {
        assert t == ['\\', v[0]] + tail by {
          assert Escape(v) == ['\\', v[0]] + Escape(v[1..]);
        }
        assert t[0] == '\\' && t[1] == v[0] && t[2..] == tail;
      } else {
        assert t == [v[0]] + tail by {
          assert Escape(v) == [v[0]] + Escape(v[1..]);
        }
        assert t[0] == v[0] && t[1..] == tail;
      }
      assert [v[0]] + v[1..] == v;
    }
  }

  function EncodeField(f: Option<string>): string {
    match f
    case None => "N"
    case Some(s) => "S" + Escape(s) + ";"
  }

  function ReadField(s: string): Option<(Option<string>, string)> {
    if s == [] then None
    else if s[0] == 'N' then Some((None, s[1..]))
    else if s[0] == 'S' then
      match ReadEscaped(s[1..])
      case None => None
      case Some(p) => Some((Some(p.0), p.1))
    else None
  }

  function EncodeFields(fs: seq<Option<string>>): string {
    if fs == [] then "" else EncodeField(fs[0]) + EncodeFields(fs[1..])
  }

  /** Reads exactly n fields and nothing after them. */
  function DecodeFields(s: string, n: nat): Option<seq<Option<string>>>
    decreases n
  {
    if n == 0 then (if s == [] then Some([]) else None)
    else match ReadField(s)
      case None => None
      case Some(p) =>
        match DecodeFields(p.1, n - 1)
        case None => None
        case Some(fs) => Some([p.0] + fs)
  }

  lemma {:induction false} DecodeEncodeFields(fs: seq<Option<string>>)
    ensures DecodeFields(EncodeFields(fs), |fs|) == Some(fs)
  {
    if fs != [] {
      var rest := EncodeFields(fs[1..]);
      DecodeEncodeFields(fs[1..]);
      ReadFieldOfEncode(fs[0], rest);
      assert EncodeFields(fs) == EncodeField(fs[0]) + rest;
      assert [fs[0]] + fs[1..] == fs;
    }
  }

  /** One encoded field is read back, and reading stops right after it. */
  lemma ReadFieldOfEncode(f: Option<string>, rest: string)
    ensures ReadField(EncodeField(f) + rest) == Some((f, rest))
  {
    var t := EncodeField(f) + rest;
    match f
    case None =>
      assert t[0] == 'N' && t[1..] == rest by {
        assert t == ['N'] + rest;
      }
    case Some(v) =>
      var body := Escape(v) + ";" + rest;
      assert t[0] == 'S' && t[1..] == body by {
        assert t == ['S'] + body;
      }
      ReadEscapedOfEscape(v, rest);
  }

  function ToFields(u: UserRecord): seq<Option<string>> {
    [ if u.id.Some? then Some(IntToString(u.id.value)) else None,
      u.username, u.firstName, u.lastName, u.email, u.dni, u.userType, u.avatarUrl ]
  }

  function FromFields(fs: seq<Option<string>>): Option<UserRecord>
    requires |fs| == 8
  {
    var id: Option<Option<int>> :=
      match fs[0]
      case None => Some(None)
      case Some(t) => if ParseInt(t).Num? then Some(Some(ParseInt(t).n)) else None;
    if id.None? then None
    else Some(UserRecord(id.value, fs[1], fs[2], fs[3], fs[4], fs[5], fs[6], fs[7]))
  }

  /** JSON.stringify(user) */
  function Encode(u: UserRecord): string {
    EncodeFields(ToFields(u))
  }

  /** JSON.parse(text) read as a user record; None for malformed text. */
  function Decode(text: string): Option<UserRecord> {
    match DecodeFields(text, 8)
    case None => None
    case Some(fs) => if |fs| == 8 then FromFields(fs) else None
  }

  /** What is written is read back unchanged. */
  lemma DecodeEncode(u: UserRecord)
    ensures Decode(Encode(u)) == Some(u)
  {
    DecodeEncodeFields(ToFields(u));
    if u.id.Some? {
      ParseIntRoundTrip(u.id.value);
    }
  }

  /** The stored user as the views parse it: a missing or empty "user" key,
      or malformed text, gives None and never an exception. */
  function ParseStoredUser(store: Store): (r: Option<UserRecord>)
    ensures !Present(GetItem(store, UserKey)) ==> r.None?
    ensures r.Some? ==> Decode(store[UserKey]) == r
  {
    var raw := GetItem(store, UserKey);
    if Present(raw) then Decode(raw.value) else None
  }

  /** A stored record is read back as the record that was written. */
  lemma ParseStoredUserAfterWrite(store: Store, u: UserRecord)
    ensures ParseStoredUser(store[UserKey := Encode(u)]) == Some(u)
  {
    DecodeEncode(u);
    assert Encode(u) != "" by {
      assert ToFields(u) != [];
    }
  }

  /** window.localStorage: one map that the views read and write. */
  class LocalStorage {
    var entries: Store

    constructor (initial: Store)
      ensures entries == initial
    {
      entries := initial;
    }

    function Get(key: string): Option<string>
      reads this
    {
      GetItem(entries, key)
    }

    method SetItem(key: string, value: string)
      modifies this
      ensures entries == old(entries)[key := value]
    {
      entries := entries[key := value];
    }

    method RemoveItem(key: string)
      modifies this
      ensures entries == old(entries) - {key}
    {
      entries := entries - {key};
    }
  }
}
