/** JSON-shaped values, the session mapping `page.database`, the exceptions the
    pages can raise, and the static JSON data files the pages read. */
module Data {

  /** A value as `json.load` produces it. */
  datatype Value =
    | Null
    | Bool(b: bool)
    | Int(i: int)
    | Str(s: string)
    | List(items: seq<Value>)
    | Obj(fields: map<string, Value>)

  /** Python truthiness, as in `if db["channel"]`. */
  predicate Truthy(v: Value) {
    match v
    case Null => false
    case Bool(b) => b
    case Int(i) => i != 0
    case Str(s) => s != ""
    case List(items) => items != []
    case Obj(fields) => fields != map[]
  }

  /** `page.database`: the session mapping shared by every page. */
  type Database = map<string, Value>

  /** The Python exceptions the modelled code raises. */
  datatype Error = KeyError(key: string) | IndexError | TypeError

  datatype Option<T> = None | Some(value: T)

  /** A computation that either returns a value or raises. */
  datatype Result<T> = Ok(value: T) | Err(error: Error) {
    predicate IsFailure() { Err? }
    function PropagateFailure<U>(): Result<U> requires Err? { Err(error) }
    function Extract(): T requires Ok? { value }
  }

  /** `db[key]` */
  function Lookup(db: Database, key: string): (r: Result<Value>)
    ensures r.Ok? <==> key in db
    ensures r.Ok? ==> r.value == db[key]
    ensures r.Err? ==> r.error == KeyError(key)
  {
    if key in db then Ok(db[key]) else Err(KeyError(key))
  }

  /** Reads `m[k]` for every `k` of `keys` in order: the position of the first
      absent key, whose read raises KeyError, or nothing. */
  function FirstMissing(m: map<string, Value>, keys: seq<string>): (r: Option<nat>)
    ensures r.None? <==> forall k :: k in keys ==> k in m
    ensures r.Some? ==> r.value < |keys| && keys[r.value] !in m
    ensures r.Some? ==> forall i :: 0 <= i < r.value ==> keys[i] in m
  {
    if keys == [] then None
    else if keys[0] !in m then Some(0)
    else match FirstMissing(m, keys[1..])
      case None => None
      case Some(j) => Some(j + 1)
  }

  /** Reads all of `keys` from the dict `v`, raising as Python would. */
  function ReadFields(v: Value, keys: seq<string>): (r: Result<map<string, Value>>)
    ensures r.Ok? <==> v.Obj? && forall k :: k in keys ==> k in v.fields
    ensures r.Ok? ==> r.value == v.fields
  {
    if !v.Obj? then Err(TypeError)
    else match FirstMissing(v.fields, keys)
      case Some(i) => Err(KeyError(keys[i]))
      case None => Ok(v.fields)
  }

  /** `list.index`: the first position of `x`, or nothing (ValueError). */
  function IndexOf<T(==)>(s: seq<T>, x: T): (r: Option<nat>)
    ensures r.None? <==> x !in s
    ensures r.Some? ==> r.value < |s| && s[r.value] == x && x !in s[..r.value]
  {
    if s == [] then None
    else if s[0] == x then Some(0)
    else match IndexOf(s[1..], x)
      case None => None
      case Some(i) =>
        assert s[..i + 1] == [s[0]] + s[1..][..i];
        Some(i + 1)
  }

  /** One record of `data/messages/<id>.json`. */
  datatype MessageRecord = MessageRecord(message: string, time: string, role: string, seen: bool)

  /** One record of `data/chats.json`. */
  datatype ChatRecord = ChatRecord(
    id: string, profile: Value, name: string, folder: string, count: int,
    pinned: bool, muted: bool, phoneNumber: string, username: string, birth: string,
    status: string, bio: string, hasStory: bool, channel: Value, storySeen: bool)

  /** One record of `data/countries.json`. */
  datatype Country = Country(name: string, code: string, dialCode: string, flag: string)

  /** The read-only data directory: the chat list, the message log of every chat
      whose file exists (a missing file is a missing key), and the country list. */
  datatype DataFiles = DataFiles(
    chats: seq<ChatRecord>,
    messages: map<string, seq<MessageRecord>>,
    countries: seq<Country>)

  /** The constructor arguments of a chat-list entry (`ChatDialog`). */
  datatype Dialog = Dialog(
    profile: Value, name: string, message: string, time: string, seen: bool,
    count: int, pinned: bool, muted: bool, chatId: string, phoneNumber: string,
    username: string, birth: string, status: string, bio: string, hasStory: bool,
    channel: Value, storySeen: bool)
}
