/** The side drawer of the menu screen (`pages/libs/menuDrawer.py`): the
    profile header, the collapsible block of logged-in accounts, the fixed menu
    entries, and the "My Profile" entry that opens one's own profile. */
module MenuDrawer {
  import opened Data
  import opened Views
  import Navigation

  const Up: string := "keyboard_arrow_up"
  const Down: string := "keyboard_arrow_down"

  /** The unread badge of an account row. */
  datatype Badge = Badge(text: string, width: int)

  /** One logged-in account. */
  datatype Account = Account(profile: Value, name: Value, badge: Option<Badge>)

  /** A row of the account block. */
  datatype AccountRow = AccountTile(account: Account) | AddAccount | RowDivider

  datatype DrawerItem =
    | ProfileSection(profile: Value, hasStory: Value, name: Value, phoneNumber: Value)
    | Entry(title: string)
    | Separator
    | AccountsBlock(rows: seq<AccountRow>)

  /** The fixed entries below the header, in order. */
  const StaticItems: seq<DrawerItem> := [
    Entry("My Profile"), Entry("Wallet"), Separator,
    Entry("New Group"), Entry("Contacts"), Entry("Calls"), Entry("People Nearby"),
    Entry("Saved Messages"), Entry("Settings"), Separator,
    Entry("Invite Friends"), Entry("Telegram Features")]

  /** The badge for an `unread` value: none when it is falsy, otherwise the
      text with a width of 20 plus 5 per character. */
  function BadgeOf(unread: Value): (r: Result<Option<Badge>>)
    ensures !Truthy(unread) ==> r == Ok(None)
    ensures unread.Str? && unread.s != "" ==> r == Ok(Some(Badge(unread.s, 20 + 5 * |unread.s|)))
    ensures r.Ok? && r.value.Some? ==> r.value.value.text != ""
  {
    if !Truthy(unread) then Ok(None)
    else if unread.Str? then Ok(Some(Badge(unread.s, 20 + 5 * |unread.s|)))
    else Err(TypeError)
  }

  /** The keys read from each account, in order. */
  const AccountKeys: seq<string> := ["profile", "name", "unread"]

  /** The row built from one entry of `logged_accounts`. */
  function AccountOf(v: Value): (r: Result<Account>)
    ensures r.Ok? <==> v.Obj? && (forall k :: k in AccountKeys ==> k in v.fields) && BadgeOf(v.fields["unread"]).Ok?
    ensures r.Ok? ==> r.value == Account(v.fields["profile"], v.fields["name"], BadgeOf(v.fields["unread"]).value)
  {
    var fields :- ReadFields(v, AccountKeys);
    var badge :- BadgeOf(fields["unread"]);
    Ok(Account(fields["profile"], fields["name"], badge))
  }

  /** The items `db["logged_accounts"][::-1]` iterates over, reversed back: a
      list gives its elements, a string its characters. */
  function LoggedAccounts(v: Value): (r: Result<seq<Value>>)
    ensures v.List? ==> r == Ok(v.items)
    ensures v.Str? ==> r.Ok? && |r.value| == |v.s| && forall i :: 0 <= i < |v.s| ==> r.value[i] == Str([v.s[i]])
    ensures !v.List? && !v.Str? ==> r == Err(TypeError)
  {
    match v
    case List(items) => Ok(items)
    case Str(s) => Ok(seq(|s|, i requires 0 <= i < |s| => Str([s[i]])))
    case _ => Err(TypeError)
  }

  /** The account loop of `MenuDrawer.build`: walks the accounts from the last
      to the first, inserting each row at the top, so the rows keep the order of
      the list; "Add Account" and a divider stay at the bottom. The first
      failure met, counting from the end, is raised. */
  method BuildAccounts(logged: seq<Value>) returns (r: Result<seq<AccountRow>>)
    ensures r.Ok? <==> forall i :: 0 <= i < |logged| ==> AccountOf(logged[i]).Ok?
    ensures r.Ok? ==> |r.value| == |logged| + 2
    ensures r.Ok? ==> forall i :: 0 <= i < |logged| ==> r.value[i] == AccountTile(AccountOf(logged[i]).value)
    ensures r.Ok? ==> r.value[|logged|..] == [AddAccount, RowDivider]
    ensures r.Err? ==> exists i :: 0 <= i < |logged| && AccountOf(logged[i]) == Err(r.error) &&
                         forall j :: i < j < |logged| ==> AccountOf(logged[j]).Ok?
  {
    var rows := [AddAccount, RowDivider];
    var i := |logged|;
    while i > 0
      invariant 0 <= i <= |logged|
      invariant forall j :: i <= j < |logged| ==> AccountOf(logged[j]).Ok?
      invariant |rows| == |logged| - i + 2
      invariant forall j :: i <= j < |logged| ==> rows[j - i] == AccountTile(AccountOf(logged[j]).value)
      invariant rows[|logged| - i..] == [AddAccount, RowDivider]
    {
      i := i - 1;
      var account := AccountOf(logged[i]);
      if account.Err? {
        return Err(account.error);
      }
      rows := [AccountTile(account.value)] + rows;
    }
    r := Ok(rows);
  }

  /** `list.insert(1, x)`. */
  function InsertAt1<T>(s: seq<T>, x: T): (r: seq<T>)
    ensures |r| == |s| + 1
    ensures |s| >= 1 ==> r[0] == s[0] && r[1] == x && r[2..] == s[1..]
    ensures s == [] ==> r == [x]
  {
    if s == [] then [x] else s[..1] + [x] + s[1..]
  }

  /** One press of the arrow: with the up icon, drop the element at index 1 and
      show the down icon; otherwise insert the block at index 1 and show up. */
  function Toggle(controls: seq<DrawerItem>, icon: string, block: DrawerItem): (r: (seq<DrawerItem>, string))
    requires icon == Up ==> |controls| >= 2
    ensures icon == Up ==> r.1 == Down && |r.0| == |controls| - 1 && r.0[..1] == controls[..1] && r.0[1..] == controls[2..]
    ensures icon != Up ==> r.1 == Up && |r.0| == |controls| + 1
    ensures icon != Up && controls != [] ==> r.0[..1] == controls[..1] && r.0[1] == block && r.0[2..] == controls[1..]
    ensures icon != Up && controls == [] ==> r.0 == [block]
  {
    if icon == Up then (controls[..1] + controls[2..], Down)
    else (InsertAt1(controls, block), Up)
  }

  /** Two presses restore both the list and the icon, when the block was the
      element at index 1 exactly while the icon was up. */
  lemma ToggleTwice(controls: seq<DrawerItem>, icon: string, block: DrawerItem)
    requires icon == Up || icon == Down
    requires icon == Up ==> |controls| >= 2 && controls[1] == block
    requires icon == Down ==> |controls| >= 1
    ensures var once := Toggle(controls, icon, block);
            Toggle(once.0, once.1, block) == (controls, icon)
  {
    var once := Toggle(controls, icon, block);
    if icon == Up {
      assert InsertAt1(once.0, block) == controls;
    } else {
      assert once.0[..1] + once.0[2..] == controls;
    }
  }

  class Drawer {
    var controls: seq<DrawerItem>
    var icon: string
    const block: DrawerItem

    /** The header is first and the fixed entries last; the account block sits
        at index 1 exactly while the arrow points up. */
    ghost predicate Valid()
      reads this
    {
      && block.AccountsBlock?
      && |controls| >= 1 && controls[0].ProfileSection?
      && (icon == Up || icon == Down)
      && (icon == Up ==> controls == [controls[0], block] + StaticItems)
      && (icon == Down ==> controls == [controls[0]] + StaticItems)
      && (icon == Up <==> controls[1] == block)
    }

    /** The drawer as `MenuDrawer.build` leaves it: the block not yet present is
        inserted at index 1 and the arrow points up. */
    constructor (header: DrawerItem, rows: seq<AccountRow>)
      requires header.ProfileSection?
      ensures block == AccountsBlock(rows)
      ensures controls == [header, block] + StaticItems && icon == Up
      ensures Valid()
    {
      block := AccountsBlock(rows);
      icon := Up;
      controls := [header] + StaticItems;
      new;
      var found := IndexOf(controls, block);
      if found.None? {
        controls := InsertAt1(controls, block);
      }
      assert controls == [header, block] + StaticItems;
    }

    /** `handle_accounts`: hides or shows the account block. */
    method HandleAccounts()
      requires Valid()
      modifies this
      ensures Valid()
      ensures (controls, icon) == Toggle(old(controls), old(icon), block)
      ensures old(icon) == Up ==> icon == Down && controls == old(controls)[..1] + StaticItems
      ensures old(icon) == Down ==> icon == Up && controls == old(controls)[..1] + [block] + StaticItems
    {
      if icon == Up {
        controls := controls[..1] + controls[2..];
        icon := Down;
      } else {
        controls := InsertAt1(controls, block);
        icon := Up;
      }
    }
  }

  /** The keys the header reads from the session, in order. */
  const HeaderKeys: seq<string> := ["profile", "has_story", "name", "phone_number"]

  function HeaderOf(db: Database): (r: Result<DrawerItem>)
    ensures r.Ok? <==> forall k :: k in HeaderKeys ==> k in db
    ensures r.Ok? ==> r.value == ProfileSection(db["profile"], db["has_story"], db["name"], db["phone_number"])
    ensures r.Err? ==> exists i :: 0 <= i < |HeaderKeys| && HeaderKeys[i] !in db && r.error == KeyError(HeaderKeys[i]) &&
                         forall j :: 0 <= j < i ==> HeaderKeys[j] in db
  {
    match FirstMissing(db, HeaderKeys)
    case Some(i) => Err(KeyError(HeaderKeys[i]))
    case None => Ok(ProfileSection(db["profile"], db["has_story"], db["name"], db["phone_number"]))
  }

  /** `MenuDrawer.build`: the header from the session, then the account block
      from `logged_accounts`; any missing key or malformed account raises. */
  method BuildDrawer(db: Database) returns (r: Result<Drawer>)
    ensures HeaderOf(db).Err? ==> r == Err(HeaderOf(db).error)
    ensures HeaderOf(db).Ok? && "logged_accounts" !in db ==> r == Err(KeyError("logged_accounts"))
    ensures r.Ok? ==> HeaderOf(db).Ok? && "logged_accounts" in db && LoggedAccounts(db["logged_accounts"]).Ok?
    ensures r.Ok? ==>
              var logged := LoggedAccounts(db["logged_accounts"]).value;
              && fresh(r.value) && r.value.Valid() && r.value.icon == Up
              && r.value.controls == [HeaderOf(db).value, r.value.block] + StaticItems
              && |r.value.block.rows| == |logged| + 2
              && (forall i :: 0 <= i < |logged| ==>
                    (AccountOf(logged[i]).Ok? && r.value.block.rows[i] == AccountTile(AccountOf(logged[i]).value)))
              && r.value.block.rows[|logged|..] == [AddAccount, RowDivider]
    ensures HeaderOf(db).Ok? && "logged_accounts" in db && LoggedAccounts(db["logged_accounts"]).Err? ==>
              r == Err(TypeError)
    ensures HeaderOf(db).Ok? && "logged_accounts" in db && LoggedAccounts(db["logged_accounts"]).Ok? && r.Err? ==>
              var logged := LoggedAccounts(db["logged_accounts"]).value;
              exists i :: 0 <= i < |logged| && AccountOf(logged[i]) == Err(r.error) &&
                forall j :: i < j < |logged| ==> AccountOf(logged[j]).Ok?
    ensures HeaderOf(db).Ok? && "logged_accounts" in db && LoggedAccounts(db["logged_accounts"]).Ok? ==>
              (r.Ok? <==> forall v :: v in LoggedAccounts(db["logged_accounts"]).value ==> AccountOf(v).Ok?)
  {
    var header := HeaderOf(db);
    if header.Err? {
      return Err(header.error);
    }
    if "logged_accounts" !in db {
      return Err(KeyError("logged_accounts"));
    }
    var logged := LoggedAccounts(db["logged_accounts"]);
    if logged.Err? {
      return Err(logged.error);
    }
    var rows := BuildAccounts(logged.value);
    if rows.Err? {
      return Err(rows.error);
    }
    var drawer := new Drawer(header.value, rows.value);
    r := Ok(drawer);
  }

  /** The ten identity keys `goto_my_profile` copies into `database["chat"]`. */
  const IdentityKeys: seq<string> := [
    "id", "profile", "name", "phone_number", "username",
    "birth", "status", "bio", "has_story", "channel"]

  /** `db["chat"][key] = value`: the chat must exist and be a dict. */
  function SetChatField(db: Database, key: string, value: Value): (r: Result<Database>)
    ensures r.Ok? <==> "chat" in db && db["chat"].Obj?
    ensures "chat" !in db ==> r == Err(KeyError("chat"))
    ensures r.Ok? ==> r.value == db["chat" := Obj(db["chat"].fields[key := value])]
  {
    var chat :- Lookup(db, "chat");
    if chat.Obj? then Ok(db["chat" := Obj(chat.fields[key := value])]) else Err(TypeError)
  }

  /** `db["chat"][key] = db[key]`: the right-hand side is read first. */
  function CopyField(db: Database, key: string): (r: Result<Database>)
    ensures key !in db ==> r == Err(KeyError(key))
    ensures r.Ok? <==> key in db && "chat" in db && db["chat"].Obj?
    ensures r.Ok? ==> r.value == db["chat" := Obj(db["chat"].fields[key := db[key]])]
  {
    var value :- Lookup(db, key);
    SetChatField(db, key, value)
  }

  /** The statements `db["chat"][k] = db[k]` for `k` in `keys`, in order: the
      session they leave, and the exception that stops them, if any. Writes made
      before the exception stay. */
  function CopyAll(db: Database, keys: seq<string>): (Database, Option<Error>)
  {
    if keys == [] then (db, None)
    else match CopyField(db, keys[0])
      case Err(e) => (db, Some(e))
      case Ok(next) => CopyAll(next, keys[1..])
  }

  /** The copies succeed exactly when every key and a dict-valued chat exist;
      then the chat holds the session's values under those keys and keeps its
      other fields, and every other session key is untouched, even on failure. */
  lemma {:induction false} CopyAllEffect(db: Database, keys: seq<string>)
    requires "chat" !in keys
    ensures var (after, err) := CopyAll(db, keys);
            && after.Keys == db.Keys
            && (forall k :: k in db && k != "chat" ==> after[k] == db[k])
            && (err.None? <==> keys == [] || ((forall k :: k in keys ==> k in db) && "chat" in db && db["chat"].Obj?))
            && (err.None? && keys != [] ==>
                  && after["chat"].Obj?
                  && after["chat"].fields.Keys == db["chat"].fields.Keys + (set k | k in keys)
                  && (forall k :: k in keys ==> after["chat"].fields[k] == db[k])
                  && (forall k :: k in db["chat"].fields && k !in keys ==> after["chat"].fields[k] == db["chat"].fields[k]))
  {
    if keys != [] {
      var first := CopyField(db, keys[0]);
      if first.Ok? {
        var next := first.value;
        CopyAllEffect(next, keys[1..]);
        var (after, err) := CopyAll(next, keys[1..]);
        assert CopyAll(db, keys) == (after, err);
        assert forall k :: k in keys ==> k == keys[0] || k in keys[1..];
        if err.None? && keys[1..] == [] {
          assert keys == [keys[0]];
        }
      }
    }
  }

  /** One statement `db["chat"][key] = db[key]` against the page's session. */
  method CopyToChat(page: Navigation.Page, key: string) returns (failed: Option<Error>)
    modifies page
    ensures CopyField(old(page.database), key).Ok? ==>
              page.database == CopyField(old(page.database), key).value && failed.None?
    ensures CopyField(old(page.database), key).Err? ==>
              page.database == old(page.database) && failed == Some(CopyField(old(page.database), key).error)
    ensures page.views == old(page.views) && page.route == old(page.route)
    ensures page.onRouteChange == old(page.onRouteChange) && page.onViewPop == old(page.onViewPop)
  {
    if key !in page.database {
      return Some(KeyError(key));
    }
    var value := page.database[key];
    if "chat" !in page.database {
      return Some(KeyError("chat"));
    }
    var chat := page.database["chat"];
    if !chat.Obj? {
      return Some(TypeError);
    }
    page.database := page.database["chat" := Obj(chat.fields[key := value])];
    failed := None;
  }

  /** The session `goto_my_profile` leaves, and the exception that stops it:
      the ten copies, then `story_seen` cleared, then `last_page` recorded. */
  function OwnProfileWrites(db: Database): (Database, Option<Error>)
  {
    var copy := CopyAll(db, IdentityKeys);
    if copy.1.Some? then copy
    else match SetChatField(copy.0, "story_seen", Bool(false))
      case Err(e) => (copy.0, Some(e))
      case Ok(marked) => (marked["last_page" := Str("/menu")], None)
  }

  /** The writes succeed exactly when the ten identity keys and a dict-valued
      chat are in the session. */
  lemma OwnProfileSucceeds(db: Database)
    ensures OwnProfileWrites(db).1.None? <==>
              (forall k :: k in IdentityKeys ==> k in db) && "chat" in db && db["chat"].Obj?
  {
    CopyAllEffect(db, IdentityKeys);
    var (copied, err) := CopyAll(db, IdentityKeys);
    if err.None? {
      assert "chat" in copied && copied["chat"].Obj?;
      assert SetChatField(copied, "story_seen", Bool(false)).Ok?;
    }
  }

  /** Whether or not they succeed, the writes touch no session key other than
      `chat` and `last_page`. */
  lemma OwnProfileKeepsOthers(db: Database)
    ensures var after := OwnProfileWrites(db).0;
            forall k :: k in db && k != "chat" && k != "last_page" ==> k in after && after[k] == db[k]
  {
    CopyAllEffect(db, IdentityKeys);
  }

  /** After a successful run the session gains only `last_page`, which is
      "/menu". */
  lemma OwnProfileSession(db: Database)
    requires (forall k :: k in IdentityKeys ==> k in db) && "chat" in db && db["chat"].Obj?
    ensures var after := OwnProfileWrites(db).0;
            after.Keys == db.Keys + {"last_page"} && after["last_page"] == Str("/menu")
  {
    CopyAllEffect(db, IdentityKeys);
    var (copied, err) := CopyAll(db, IdentityKeys);
    assert err.None? && "chat" in copied && copied["chat"].Obj?;
    var marked := copied["chat" := Obj(copied["chat"].fields["story_seen" := Bool(false)])];
    assert OwnProfileWrites(db).0 == marked["last_page" := Str("/menu")];
  }

  /** After a successful run the chat's dict is the copied one with its story
      marked unseen. */
  lemma OwnProfileMarks(db: Database)
    requires (forall k :: k in IdentityKeys ==> k in db) && "chat" in db && db["chat"].Obj?
    ensures CopyAll(db, IdentityKeys).1.None?
    ensures var copied := CopyAll(db, IdentityKeys).0;
            && "chat" in copied && copied["chat"].Obj?
            && OwnProfileWrites(db).0["chat"] == Obj(copied["chat"].fields["story_seen" := Bool(false)])
  {
    CopyAllEffect(db, IdentityKeys);
  }

  /** After a successful run the chat shows one's own identity with its story
      unseen. */
  lemma OwnProfileChat(db: Database)
    requires (forall k :: k in IdentityKeys ==> k in db) && "chat" in db && db["chat"].Obj?
    ensures var after := OwnProfileWrites(db).0;
            && "chat" in after && after["chat"].Obj?
            && var chat := after["chat"].fields;
               && (forall k :: k in IdentityKeys ==> k in chat && chat[k] == db[k])
               && "story_seen" in chat && chat["story_seen"] == Bool(false)
  {
    OwnProfileMarks(db);
    var copied := CopyAll(db, IdentityKeys).0["chat"].fields;
    assert forall k :: k in IdentityKeys ==> k in copied && copied[k] == db[k] by {
      CopyAllEffect(db, IdentityKeys);
    }
    assert "story_seen" !in IdentityKeys;
  }

  /** After a successful run the chat's dict gains only the identity keys and
      `story_seen`, and keeps the values of its other fields. */
  lemma OwnProfileChatKeeps(db: Database)
    requires (forall k :: k in IdentityKeys ==> k in db) && "chat" in db && db["chat"].Obj?
    ensures var after := OwnProfileWrites(db).0;
            && "chat" in after && after["chat"].Obj?
            && var chat := after["chat"].fields;
               && chat.Keys == db["chat"].fields.Keys + (set k | k in IdentityKeys) + {"story_seen"}
               && (forall k :: k in db["chat"].fields && k !in IdentityKeys && k != "story_seen" ==>
                     chat[k] == db["chat"].fields[k])
  {
    CopyAllEffect(db, IdentityKeys);
    OwnProfileMarks(db);
  }

  /** `goto_my_profile`: copies the ten identity fields into `database["chat"]`,
      marks its story unseen, records "/menu" as the page to return to, and
      opens the profile screen. An exception stops it where it occurs. */
  method GotoMyProfile(page: Navigation.Page) returns (outcome: Navigation.Outcome)
    modifies page
    ensures page.database == OwnProfileWrites(old(page.database)).0
    ensures OwnProfileWrites(old(page.database)).1.Some? ==>
              && outcome == Navigation.Raised(OwnProfileWrites(old(page.database)).1.value)
              && page.views == old(page.views) && page.route == old(page.route)
    ensures OwnProfileWrites(old(page.database)).1.None? ==>
              page.route == "/profile" && (page.onRouteChange ==> |page.views| <= 1)
    ensures page.onRouteChange == old(page.onRouteChange) && page.onViewPop == old(page.onViewPop)
    ensures OwnProfileWrites(old(page.database)).1.None? && !page.onRouteChange ==>
              page.views == old(page.views) && outcome == Navigation.Done
    ensures OwnProfileWrites(old(page.database)).1.None? && page.onRouteChange ==>
              match Navigation.RouteChange(page.database, page.files, "/profile")
              case Ok(v) => page.views == [v] && outcome == Navigation.Done
              case Err(e) => page.views == [] && outcome == Navigation.Raised(e)
  {
    ghost var db0 := page.database;
    var failed := CopyKeys(page, IdentityKeys);
    if failed.Some? {
      return Navigation.Raised(failed.value);
    }
    if "chat" !in page.database {
      return Navigation.Raised(KeyError("chat"));
    }
    var chat := page.database["chat"];
    if !chat.Obj? {
      return Navigation.Raised(TypeError);
    }
    page.database := page.database["chat" := Obj(chat.fields["story_seen" := Bool(false)])];
    page.database := page.database["last_page" := Str("/menu")];
    outcome := page.Go("/profile");
  }

  /** The statements `db["chat"][k] = db[k]` for the keys of `keys`, in
      order, stopping at the first exception. */
  method CopyKeys(page: Navigation.Page, keys: seq<string>) returns (failed: Option<Error>)
    modifies page
    ensures (page.database, failed) == CopyAll(old(page.database), keys)
    ensures page.views == old(page.views) && page.route == old(page.route)
    ensures page.onRouteChange == old(page.onRouteChange) && page.onViewPop == old(page.onViewPop)
    decreases |keys|
  {
    if keys == [] {
      return None;
    }
    failed := CopyToChat(page, keys[0]);
    if failed.Some? {
      return;
    }
    failed := CopyKeys(page, keys[1..]);
  }
}
