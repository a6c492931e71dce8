/** The chat-list screen (`pages/menu.py`): one tab per chat folder, each tab
    listing the chats of that folder with a divider after each, and the story row. */
module Menu {
  import opened Data

  /** The last message of a chat as its list entry shows it. */
  datatype Preview = Preview(message: string, role: string, time: string)

  /** A control inside a folder tab. */
  datatype TabItem = DialogTile(dialog: Dialog) | Divider

  datatype Tab = Tab(text: string, controls: seq<TabItem>)

  /** A control of the story row: the two empty texts that pad its ends, and the
      avatar of a chat that has a story. */
  datatype StoryItem = Spacer | Avatar(profile: Value, name: string, seen: bool)

  datatype MenuContent = MenuContent(tabs: seq<Tab>, storyRow: seq<StoryItem>)

  /** The preview of a chat: the last record of its message file, or a fixed
      placeholder when the file is missing. Indexing `[-1]` of an empty file raises. */
  function LastMessage(log: map<string, seq<MessageRecord>>, id: string): (r: Result<Preview>)
    ensures r.Err? <==> id in log && log[id] == []
    ensures r.Err? ==> r.error == IndexError
    ensures id !in log ==> r == Ok(Preview("Chat history deleted", "empty", ""))
    ensures id in log && log[id] != [] ==>
              var last := log[id][|log[id]| - 1];
              r == Ok(Preview(last.message, last.role, last.time))
  {
    if id !in log then Ok(Preview("Chat history deleted", "empty", ""))
    else if log[id] == [] then Err(IndexError)
    else
      var last := log[id][|log[id]| - 1];
      Ok(Preview(last.message, last.role, last.time))
  }

  /** The chat's preview can be read: its message file is missing or non-empty. */
  predicate Readable(log: map<string, seq<MessageRecord>>, c: ChatRecord) {
    c.id in log ==> log[c.id] != []
  }

  predicate AllReadable(log: map<string, seq<MessageRecord>>, chats: seq<ChatRecord>) {
    forall c :: c in chats ==> Readable(log, c)
  }

  /** Whether the entry shows the message as seen: `True if last_role == "self"
      else True if last_role == "empty" else False`. */
  function Seen(role: string): (seen: bool)
    ensures seen <==> role == "self" || role == "empty"
  {
    if role == "self" then true else if role == "empty" then true else false
  }

  /** The unread count shown: zero for a chat without history, otherwise the stored one. */
  function Count(role: string, stored: int): (count: int)
    ensures role == "empty" ==> count == 0
    ensures role != "empty" ==> count == stored
  {
    if role == "empty" then 0 else stored
  }

  /** The arguments the chat list passes to `ChatDialog` for chat `c`. */
  function DialogOf(c: ChatRecord, p: Preview): Dialog {
    Dialog(c.profile, c.name, p.message, p.time, Seen(p.role), Count(p.role, c.count),
           c.pinned, c.muted, c.id, c.phoneNumber, c.username, c.birth, c.status,
           c.bio, c.hasStory, c.channel, c.storySeen)
  }

  /** The entry of a readable chat. */
  function EntryOf(log: map<string, seq<MessageRecord>>, c: ChatRecord): Dialog
    requires Readable(log, c)
  {
    DialogOf(c, LastMessage(log, c.id).value)
  }

  /** The chats of a folder, in file order. */
  function Matching(folder: string, chats: seq<ChatRecord>): seq<ChatRecord> {
    if chats == [] then []
    else
      var c := chats[|chats| - 1];
      Matching(folder, chats[..|chats| - 1]) + (if c.folder == folder then [c] else [])
  }

  /** The controls of the tab titled `folder`, as the loop over the chats appends them. */
  function Listing(log: map<string, seq<MessageRecord>>, folder: string, chats: seq<ChatRecord>): seq<TabItem>
    requires AllReadable(log, chats)
  {
    if chats == [] then []
    else
      var c := chats[|chats| - 1];
      assert c in chats;
      Listing(log, folder, chats[..|chats| - 1])
        + (if c.folder == folder then [DialogTile(EntryOf(log, c)), Divider] else [])
  }

  /** The avatars added while filling the tab `folder`, in processing order. */
  function TabStories(folder: string, chats: seq<ChatRecord>): seq<StoryItem> {
    if chats == [] then []
    else
      var c := chats[|chats| - 1];
      TabStories(folder, chats[..|chats| - 1])
        + (if c.folder == folder && c.hasStory then [Avatar(c.profile, c.name, c.storySeen)] else [])
  }

  /** The avatars added while filling all of `folders`, in processing order. */
  function Stories(folders: seq<string>, chats: seq<ChatRecord>): seq<StoryItem> {
    if folders == [] then []
    else Stories(folders[..|folders| - 1], chats) + TabStories(folders[|folders| - 1], chats)
  }

  function Reverse<T>(s: seq<T>): seq<T> {
    if s == [] then [] else [s[|s| - 1]] + Reverse(s[..|s| - 1])
  }

  /** The menu as `menu_layout` leaves it. With no folders the loops never read
      a message file, so only then may a file be empty. */
  function MenuOf(log: map<string, seq<MessageRecord>>, folders: seq<string>, chats: seq<ChatRecord>): MenuContent
    requires folders == [] || AllReadable(log, chats)
  {
    MenuContent(
      seq(|folders|, i requires 0 <= i < |folders| => Tab(folders[i], Listing(log, folders[i], chats))),
      [Spacer] + Reverse(Stories(folders, chats)) + [Spacer])
  }

  lemma {:induction false} MatchingMembers(folder: string, chats: seq<ChatRecord>)
    ensures forall c :: c in Matching(folder, chats) <==> c in chats && c.folder == folder
  {
    if chats != [] {
      var init := chats[..|chats| - 1];
      MatchingMembers(folder, init);
      assert chats == init + [chats[|chats| - 1]];
    }
  }

  /** A tab lists exactly the chats of its folder, in file order, each followed
      by one divider. */
  lemma {:induction false} ListingShape(log: map<string, seq<MessageRecord>>, folder: string, chats: seq<ChatRecord>)
    requires AllReadable(log, chats)
    ensures var m := Matching(folder, chats);
            && |Listing(log, folder, chats)| == 2 * |m|
            && forall i :: 0 <= i < |m| ==>
                 && m[i] in chats && Readable(log, m[i])
                 && Listing(log, folder, chats)[2 * i] == DialogTile(EntryOf(log, m[i]))
                 && Listing(log, folder, chats)[2 * i + 1] == Divider
  {
    MatchingMembers(folder, chats);
    if chats != [] {
      var init := chats[..|chats| - 1];
      assert forall c :: c in init ==> c in chats;
      ListingShape(log, folder, init);
      MatchingMembers(folder, init);
    }
  }

  lemma {:induction false} ReverseConcat<T>(a: seq<T>, b: seq<T>)
    ensures Reverse(a + b) == Reverse(b) + Reverse(a)
  {
    if b != [] {
      var init := b[..|b| - 1];
      assert a + b == (a + init) + [b[|b| - 1]];
      assert (a + b)[..|a + b| - 1] == a + init;
      ReverseConcat(a, init);
    } else {
      assert a + b == a;
    }
  }

  lemma {:induction false} ReverseSnoc<T>(s: seq<T>, x: T)
    ensures Reverse(s + [x]) == [x] + Reverse(s)
  {
    assert (s + [x])[..|s|] == s;
  }

  /** Inserting the avatars of one chat at index 1 of the story row extends
      the reversed order of the avatars before it. */
  lemma {:induction false} StoryRowInsert(row0: seq<StoryItem>, told: seq<StoryItem>, added: seq<StoryItem>)
    requires |row0| >= 1 && |added| <= 1
    ensures var row := row0[..1] + Reverse(told) + row0[1..];
            row0[..1] + Reverse(told + added) + row0[1..] == row[..1] + added + row[1..]
  {
    var row := row0[..1] + Reverse(told) + row0[1..];
    assert row[..1] == row0[..1];
    assert row[1..] == Reverse(told) + row0[1..];
    if added == [] {
      assert told + added == told;
    } else {
      ReverseSnoc(told, added[0]);
      assert added == [added[0]];
    }
  }

  /** One pass of the inner loop of `menu_layout`: reading one more chat keeps
      every file read so far readable, appends its tile and divider when it is in
      the folder, and adds its avatar when it also has a story. */
  lemma {:induction false} FillTabStep(log: map<string, seq<MessageRecord>>, folder: string, chats: seq<ChatRecord>, c: nat)
    requires c < |chats| && AllReadable(log, chats[..c]) && Readable(log, chats[c])
    ensures AllReadable(log, chats[..c + 1])
    ensures Listing(log, folder, chats[..c + 1]) == Listing(log, folder, chats[..c])
              + (if chats[c].folder == folder then [DialogTile(EntryOf(log, chats[c])), Divider] else [])
    ensures TabStories(folder, chats[..c + 1]) == TabStories(folder, chats[..c])
              + (if chats[c].folder == folder && chats[c].hasStory
                 then [Avatar(chats[c].profile, chats[c].name, chats[c].storySeen)] else [])
  {
    var upTo := chats[..c + 1];
    assert upTo == chats[..c] + [chats[c]];
    assert upTo[..c] == chats[..c];
  }

  /** The inner loop of `menu_layout` for one tab: the tab's tiles and dividers,
      and the story avatars inserted at index 1 of the story row. */
  method FillTab(log: map<string, seq<MessageRecord>>, folder: string, chats: seq<ChatRecord>, row0: seq<StoryItem>)
    returns (r: Result<(seq<TabItem>, seq<StoryItem>)>)
    requires |row0| >= 1
    ensures r.Err? <==> !AllReadable(log, chats)
    ensures r.Err? ==> r.error == IndexError
    ensures r.Ok? ==> AllReadable(log, chats) && r.value.0 == Listing(log, folder, chats)
    ensures r.Ok? ==> r.value.1 == row0[..1] + Reverse(TabStories(folder, chats)) + row0[1..]
  {
    var controls: seq<TabItem> := [];
    var row := row0;
    for c := 0 to |chats|
      invariant AllReadable(log, chats[..c])
      invariant controls == Listing(log, folder, chats[..c])
      invariant row == row0[..1] + Reverse(TabStories(folder, chats[..c])) + row0[1..]
    {
      var chat := chats[c];
      var preview := LastMessage(log, chat.id);
      if preview.Err? {
        assert chat in chats && !Readable(log, chat);
        return Err(IndexError);
      }
      FillTabStep(log, folder, chats, c);
      var avatar := Avatar(chat.profile, chat.name, chat.storySeen);
      StoryRowInsert(row0, TabStories(folder, chats[..c]), if chat.folder == folder && chat.hasStory then [avatar] else []);
      if chat.folder == folder {
        controls := controls + [DialogTile(DialogOf(chat, preview.value)), Divider];
        if chat.hasStory {
          row := row[..1] + [avatar] + row[1..];
        }
      }
    }
    assert chats[..|chats|] == chats;
    r := Ok((controls, row));
  }

  /** Inserting the avatars of tab `t` at index 1 of the story row extends the
      reversed processing order. */
  lemma StoryRowStep(folders: seq<string>, chats: seq<ChatRecord>, t: nat)
    requires t < |folders|
    ensures var row := [Spacer] + Reverse(Stories(folders[..t], chats)) + [Spacer];
            row[..1] + Reverse(TabStories(folders[t], chats)) + row[1..]
              == [Spacer] + Reverse(Stories(folders[..t + 1], chats)) + [Spacer]
  {
    var before := Stories(folders[..t], chats);
    var added := TabStories(folders[t], chats);
    assert folders[..t + 1][..t] == folders[..t];
    assert Stories(folders[..t + 1], chats) == before + added;
    var row := [Spacer] + Reverse(before) + [Spacer];
    assert row[..1] == [Spacer] && row[1..] == Reverse(before) + [Spacer];
    ReverseConcat(before, added);
  }

  /** One empty tab per folder, in folder order. */
  method AddFolderTabs(folders: seq<string>) returns (tabs: seq<Tab>)
    ensures |tabs| == |folders|
    ensures forall j :: 0 <= j < |folders| ==> tabs[j] == Tab(folders[j], [])
  {
    tabs := [];
    for t := 0 to |folders|
      invariant |tabs| == t
      invariant forall j :: 0 <= j < t ==> tabs[j] == Tab(folders[j], [])
    {
      tabs := tabs + [Tab(folders[t], [])];
    }
  }

  /** Folder tabs, tiles, dividers and story avatars as the nested loops of
      `menu_layout` build them. The preview of every chat is read for every tab,
      before the folder test, so one empty message file fails the whole screen. */
  method BuildMenu(log: map<string, seq<MessageRecord>>, folders: seq<string>, chats: seq<ChatRecord>)
    returns (r: Result<MenuContent>)
    ensures r.Err? <==> folders != [] && !AllReadable(log, chats)
    ensures r.Err? ==> r.error == IndexError
    ensures r.Ok? ==> (folders == [] || AllReadable(log, chats)) && r.value == MenuOf(log, folders, chats)
  {
    var tabs := AddFolderTabs(folders);
    var row: seq<StoryItem> := [Spacer, Spacer];
    for t := 0 to |tabs|
      invariant |tabs| == |folders|
      invariant t > 0 ==> AllReadable(log, chats)
      invariant forall j :: 0 <= j < t ==> tabs[j] == Tab(folders[j], Listing(log, folders[j], chats))
      invariant forall j :: t <= j < |tabs| ==> tabs[j] == Tab(folders[j], [])
      invariant row == [Spacer] + Reverse(Stories(folders[..t], chats)) + [Spacer]
    {
      var filled := FillTab(log, tabs[t].text, chats, row);
      if filled.Err? {
        return Err(IndexError);
      }
      StoryRowStep(folders, chats, t);
      assert tabs[t].controls == [] && tabs[t].text == folders[t];
      tabs := tabs[t := Tab(tabs[t].text, tabs[t].controls + filled.value.0)];
      row := filled.value.1;
    }
    assert folders[..|folders|] == folders;
    assert tabs == MenuOf(log, folders, chats).tabs;
    r := Ok(MenuContent(tabs, row));
  }
}
