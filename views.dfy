/** The route table of `views.py`: every call builds all five screens from the
    current session mapping and the data files, and maps each route to its view. */
module Views {
  import opened Data
  import Menu
  import Chat

  /** The five registered routes, in the order their screens are built. */
  const Routes: seq<string> := ["/login", "/otpauth", "/menu", "/chat", "/profile"]

  /** What a screen shows, reduced to the parts the session decides. */
  datatype Screen =
    | Root                                       // the framework's initial, empty view
    | LoginScreen                                // the login form (reads no session key)
    | OtpauthScreen(phoneNumber: Value)          // the code entry, quoting `database["phone_number"]`
    | MenuScreen(menu: Menu.MenuContent)         // folder tabs and story row
    | ChatScreen(chat: Chat.ChatView)            // history of `database["chat"]`
    | ProfileScreen(fields: map<string, Value>)  // the fields of `database["chat"]`

  datatype View = View(route: string, screen: Screen)

  /** `otpauth_layout`: only the phone number is read from the session. */
  function OtpauthLayout(db: Database): (r: Result<Screen>)
    ensures r.Ok? <==> "phone_number" in db
    ensures r.Ok? ==> r.value == OtpauthScreen(db["phone_number"])
    ensures r.Err? ==> r.error == KeyError("phone_number")
  {
    var phone :- Lookup(db, "phone_number");
    Ok(OtpauthScreen(phone))
  }

  /** Iterating `database["folders"]`: a list of names gives them in order, a
      string gives its characters, and anything else cannot be iterated. */
  function Folders(v: Value): (r: Result<seq<string>>)
    ensures v.List? && (forall i :: 0 <= i < |v.items| ==> v.items[i].Str?) ==>
              r.Ok? && |r.value| == |v.items| && forall i :: 0 <= i < |v.items| ==> r.value[i] == v.items[i].s
    ensures v.Str? ==> r.Ok? && |r.value| == |v.s| && forall i :: 0 <= i < |v.s| ==> r.value[i] == [v.s[i]]
    ensures v.Null? || v.Bool? || v.Int? ==> r == Err(TypeError)
  {
    match v
    case List(items) =>
      if forall i :: 0 <= i < |items| ==> items[i].Str? then
        Ok(seq(|items|, i requires 0 <= i < |items| && items[i].Str? => items[i].s))
      else Err(TypeError)
    case Str(s) => Ok(seq(|s|, i requires 0 <= i < |s| => [s[i]]))
    case _ => Err(TypeError)
  }

  /** `menu_layout`: the folder names come from the session, the chats and their
      message logs from the data files. */
  function MenuLayout(db: Database, files: DataFiles): (r: Result<Screen>)
    ensures r.Ok? ==> "folders" in db && Folders(db["folders"]).Ok?
    ensures r.Ok? ==> r.value.MenuScreen? && |r.value.menu.tabs| == |Folders(db["folders"]).value|
    ensures "folders" !in db ==> r == Err(KeyError("folders"))
    ensures "folders" in db && Folders(db["folders"]).Ok? ==>
              (r.Err? <==> Folders(db["folders"]).value != [] && !Menu.AllReadable(files.messages, files.chats))
    ensures "folders" in db && Folders(db["folders"]).Err? ==> r == Err(TypeError)
    ensures r.Err? && "folders" in db && Folders(db["folders"]).Ok? ==> r == Err(IndexError)
    ensures r.Ok? ==> r.value == MenuScreen(Menu.MenuOf(files.messages, Folders(db["folders"]).value, files.chats))
  {
    var fv :- Lookup(db, "folders");
    var folders :- Folders(fv);
    if folders != [] && !Menu.AllReadable(files.messages, files.chats) then Err(IndexError)
    else Ok(MenuScreen(Menu.MenuOf(files.messages, folders, files.chats)))
  }

  /** The keys `chat_layout` reads from `database["chat"]`, in order. */
  const ChatKeys: seq<string> := ["profile", "has_story", "name", "status", "id"]

  /** The message log named by a chat id; a missing file, like an id that is not a
      string, gives nothing. */
  function MessageFile(messages: map<string, seq<MessageRecord>>, id: Value): (r: Option<seq<MessageRecord>>)
    ensures r.Some? <==> id.Str? && id.s in messages
    ensures r.Some? ==> r.value == messages[id.s]
  {
    if id.Str? && id.s in messages then Some(messages[id.s]) else None
  }

  /** `chat_layout`: the app bar reads the chat's picture, name and status, then
      the history is loaded from the message file of its id. */
  function ChatLayout(db: Database, files: DataFiles): (r: Result<Screen>)
    ensures r.Ok? <==> "chat" in db && db["chat"].Obj? && forall k :: k in ChatKeys ==> k in db["chat"].fields
    ensures "chat" !in db ==> r == Err(KeyError("chat"))
    ensures r.Ok? ==> r.value == ChatScreen(Chat.InitialView(MessageFile(files.messages, db["chat"].fields["id"])))
  {
    var chat :- Lookup(db, "chat");
    var fields :- ReadFields(chat, ChatKeys);
    Ok(ChatScreen(Chat.InitialView(MessageFile(files.messages, fields["id"]))))
  }

  /** The keys `profile_layout` reads before and after the channel rows. */
  const ProfileHead: seq<string> := ["channel", "profile", "has_story", "name", "status"]
  const ChannelKeys: seq<string> := ["subscribers", "name", "last_time", "last_message"]
  const ProfileTail: seq<string> := ["phone_number", "bio", "username", "birth"]

  /** `profile_layout`: renders `database["chat"]`; a truthy channel must be a
      dict holding the four channel keys. */
  function ProfileLayout(db: Database): (r: Result<Screen>)
    ensures r.Ok? <==>
              && "chat" in db && db["chat"].Obj?
              && (forall k :: k in ProfileHead + ProfileTail ==> k in db["chat"].fields)
              && var channel := db["chat"].fields["channel"];
                 Truthy(channel) ==> channel.Obj? && forall k :: k in ChannelKeys ==> k in channel.fields
    ensures "chat" !in db ==> r == Err(KeyError("chat"))
    ensures r.Ok? ==> r.value == ProfileScreen(db["chat"].fields)
  {
    var chat :- Lookup(db, "chat");
    var fields :- ReadFields(chat, ProfileHead);
    var channel :- if Truthy(fields["channel"]) then ReadFields(fields["channel"], ChannelKeys) else Ok(map[]);
    var _ :- ReadFields(chat, ProfileTail);
    Ok(ProfileScreen(fields))
  }

  /** The dict literal of `view_handler`, given the four built screens. */
  function Table(otpauth: Screen, menu: Screen, chat: Screen, profile: Screen): (m: map<string, View>)
    ensures m.Keys == set route | route in Routes
    ensures forall route :: route in m ==> m[route].route == route
    ensures m["/login"].screen == LoginScreen && m["/otpauth"].screen == otpauth && m["/menu"].screen == menu
    ensures m["/chat"].screen == chat && m["/profile"].screen == profile
  {
    map[
      "/login" := View("/login", LoginScreen),
      "/otpauth" := View("/otpauth", otpauth),
      "/menu" := View("/menu", menu),
      "/chat" := View("/chat", chat),
      "/profile" := View("/profile", profile)]
  }

  /** `view_handler`: builds the five views in the order of the dict literal,
      so the first builder that raises decides the error. */
  function ViewHandler(db: Database, files: DataFiles): (r: Result<map<string, View>>)
    ensures r.Ok? <==>
              OtpauthLayout(db).Ok? && MenuLayout(db, files).Ok? && ChatLayout(db, files).Ok? && ProfileLayout(db).Ok?
    ensures r.Ok? ==> r.value.Keys == set route | route in Routes
    ensures r.Ok? ==> forall route :: route in r.value ==> r.value[route].route == route
    ensures r.Ok? ==> r.value["/login"].screen == LoginScreen
    ensures r.Ok? ==> r.value == Table(OtpauthLayout(db).value, MenuLayout(db, files).value,
                                       ChatLayout(db, files).value, ProfileLayout(db).value)
    ensures OtpauthLayout(db).Err? ==> r == Err(KeyError("phone_number"))
  {
    var otpauth, menu, chat, profile := OtpauthLayout(db), MenuLayout(db, files), ChatLayout(db, files), ProfileLayout(db);
    if otpauth.Err? then Err(otpauth.error)
    else if menu.Err? then Err(menu.error)
    else if chat.Err? then Err(chat.error)
    else if profile.Err? then Err(profile.error)
    else Ok(Table(otpauth.value, menu.value, chat.value, profile.value))
  }

  /** Even the login view needs every session key some screen reads. */
  lemma LoginNeedsWholeSession(db: Database, files: DataFiles)
    requires ViewHandler(db, files).Ok?
    ensures "phone_number" in db && "folders" in db && "chat" in db
    ensures db["chat"].Obj? && forall k :: k in ChatKeys + ProfileHead + ProfileTail ==> k in db["chat"].fields
  {
    assert MenuLayout(db, files).Ok?;
    assert ChatLayout(db, files).Ok?;
    assert ProfileLayout(db).Ok?;
  }
}
