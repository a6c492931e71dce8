# FletGrm, modelled in Dafny

FletGrm is a Telegram-like mock-up built with the Flet toolkit. Its screens are
login, code entry ("otpauth"), the chat menu, a conversation and a profile. All
state lives in one mutable session mapping, `page.database`. The mapping is
seeded from the user's own record, then read by the screen builders and written
by the callbacks. This project models that state and the navigation around it:

- **Routing and the view list** (`main.py`, `views.py`): the `Page` class holds
  the view list, the current route, the session mapping and the two registered
  handlers. `route_change` clears the list and pushes the freshly built view for
  the route. `view_pop` pops the top view and goes to the route of the view below it.
- **The screen builders**, as the session keys they read and the exceptions they
  raise. Python's `KeyError`, `TypeError` and `IndexError` are modelled as error
  values. `view_handler` builds all five screens on every navigation, so one
  missing key breaks every route.
- **The callbacks** that change state:
  - the login dial pad, country sheet and submit button;
  - the five-slot code entry and its pad;
  - the menu drawer's account block and "My Profile" entry;
  - a chat entry's click;
  - the conversation's send and focus handling;
  - the profile's back arrow.
- **The pure parts of the screens**:
  - the chat list's folder tabs and story row;
  - a chat entry's icons and unread badge;
  - the conversation history built from a message file;
  - Python's `str.strip`.

Code that builds in loops or mutates objects is modelled as classes and methods:

- `Page`, `ChatPage`, `LoginForm`, `OtpEntry`, `Drawer`;
- the loops of `menu_layout`, of the history load and of the account block.

Each method is proved against a specification function, and the main properties
are lemmas about those functions.

The module files and the source they cover:

- `data.dfy`: JSON values, the session mapping, Python lookups.
- `menu.dfy`: the chat list, `pages/menu.py`.
- `chat.dfy`: the conversation, `pages/chat.py`.
- `views.dfy`: the route table, `views.py`.
- `navigation.dfy`: the page and its handlers, `main.py`.
- `login_controls.dfy`, `login.dfy`: `pages/libs/loginControls.py` and `pages/login.py`.
- `chat_dialog.dfy`: `pages/libs/chatDialog.py`.
- `menu_drawer.dfy`: `pages/libs/menuDrawer.py`.
- `returns.dfy`: the way to the profile and back.
- `main.dfy`: the start-up, `FletGrm`.

The navigation keeps no history, and the model follows the code on this.
`route_change` always leaves exactly one view, and an exception while building
leaves none. The back gesture right after any route change therefore raises
`IndexError` (`Navigation.BackAfterRouteChange`). A view list that stays
non-empty holds only when every screen builds.

## Model

| member | source | states |
|---|---|---|
| Data.IndexOf | pages/libs/menuDrawer.py:411-419 | `list.index`: absent exactly when the element is not in the list, otherwise the first position holding it |
| Menu.LastMessage | pages/menu.py:141-152 | a missing message file gives the "Chat history deleted" placeholder; an empty file raises IndexError (`[-1]`); otherwise message, role and time of the last record |
| Menu.Seen | pages/menu.py:161 | shown as seen exactly when the last role is "self" or "empty" |
| Menu.Count | pages/menu.py:162 | the unread count is 0 for a chat without history, else the stored count |
| Menu.MatchingMembers | pages/menu.py:154 | a tab's chats are exactly the chats whose folder is the tab's text |
| Menu.ListingShape | pages/menu.py:154-184 | a tab lists its folder's chats in file order, each tile followed by one divider |
| Menu.ReverseConcat | pages/menu.py:186-197 | inserting at index 1 reverses processing order: the reverse of `a + b` is the reverse of `b` then that of `a` |
| Menu.FillTab | pages/menu.py:139-197 | the inner loop fails with IndexError exactly when some chat's message file is empty (chat names taken non-empty, see Left out); otherwise the tab holds the folder's listing and its story avatars are inserted at index 1 of the row in reverse order |
| Menu.FillTabStep | pages/menu.py:139-197 | one pass over a readable chat appends its tile and a divider when it is in the folder, and adds its avatar when it also has a story |
| Menu.StoryRowInsert | pages/menu.py:186-197 | inserting one chat's avatar at index 1 of the story row keeps the row equal to the reversed avatars so far between its ends |
| Menu.StoryRowStep | pages/menu.py:186-197 | each tab's avatars, inserted at index 1, extend the reversed story order between the two spacers |
| Menu.AddFolderTabs | pages/menu.py:117-131 | one empty tab per folder, in folder order |
| Menu.BuildMenu | pages/menu.py:117-197 | `menu_layout`'s loops fail exactly when there is a folder and some chat's file is empty (chat names taken non-empty, see Left out); otherwise the tabs and story row equal the menu specification `MenuOf` |
| Chat.HistoryOfConcat | pages/chat.py:276-327 | inserting every record at index 0 reverses the file: the history of `a + b` is that of `b` followed by that of `a` |
| Chat.HistoryLength | pages/chat.py:279-327 | a "system" record adds three entries (spacer, time chip, spacer), any other record one bubble |
| Chat.HistoryReversed | pages/chat.py:316-327 | without system records, entry `k` of the history is the bubble of record `n-1-k` |
| Chat.LoadHistory | pages/chat.py:276-327 | the loading loop leaves exactly the history specification `HistoryOf` |
| Chat.InitialView | pages/chat.py:264-335 | a missing or empty message file gives the greeting layout with a non-expanding empty history; otherwise the plain layout with the loaded history |
| Chat.SkipSpaces | pages/chat.py:79 | leading part of `str.strip()`: the first non-space position from `i` on; everything skipped is whitespace |
| Chat.SkipSpacesBack | pages/chat.py:79 | trailing part of `str.strip()`: the end of the piece once trailing whitespace is dropped; everything dropped is whitespace and the new last character is not |
| Chat.Strip | pages/chat.py:79 | `str.strip()`: the result is one contiguous piece of the text, only whitespace is removed before and after it, it starts and ends with a non-space, and it is empty exactly when the text is all whitespace |
| Chat.GreetingPosition | pages/chat.py:94-98 | the greeting is found at index 2 of the greeted layout and popping it gives the plain layout; the plain layout has none |
| Chat.ChatPage.constructor | pages/chat.py:262-335 | the screen starts as the initial view of its message file, with attach and mic buttons 40 wide and send hidden |
| Chat.ChatPage.Type | pages/chat.py:213-215 | typing changes the input text only |
| Chat.ChatPage.SendMessage | pages/chat.py:65-102 | a non-empty input becomes a stripped own bubble at index 0 with time "00:00 AM" and seen false; the input is cleared; the greeting is removed and the history expands; an empty input changes nothing; the screen invariant is kept |
| Chat.ChatPage.ChangeInputActions | pages/chat.py:37-63 | focus shows only the send button; blur with an empty input shows attach and mic again; blur with text changes nothing |
| Views.OtpauthLayout | pages/otpauth.py:72 | the code screen needs `phone_number` and quotes it; otherwise KeyError("phone_number") |
| Views.Folders | pages/menu.py:117 | iterating the folders: a list of names gives them in order, a string its characters, null, bool or number a TypeError |
| Views.MenuLayout | pages/menu.py:117-197 | a missing `folders` raises KeyError and a non-iterable one TypeError; otherwise it fails, with IndexError, exactly when there is a folder and an empty message file (chat names taken non-empty); the screen is the menu specification `MenuOf` of the folders, chats and logs |
| Views.MessageFile | pages/chat.py:264-273 | the message file named by the chat's id, or nothing when missing |
| Views.ChatLayout | pages/chat.py:125-273 | succeeds exactly when the chat is a dict holding profile, has_story, name, status and id; the screen is the initial view of its message file |
| Views.ProfileLayout | pages/profile.py:44-311 | succeeds exactly when the chat is a dict with the profile keys and a truthy channel is a dict with the four channel keys; the screen shows the chat's fields |
| Views.Table | views.py:24-69 | each of the five routes maps to a view carrying that same route, login to the login screen |
| Views.ViewHandler | views.py:17-69 | succeeds exactly when all four session-reading screens build; the table has exactly the five routes, each view carries its own route and the screen its builder made; a missing phone number is the error raised first |
| Views.LoginNeedsWholeSession | views.py:24-69 | even the login route needs phone_number, folders and a chat dict with every key some screen reads |
| Navigation.RouteChange | main.py:47-50 | the view pushed for a known route is the one the handler registered under it; an unknown route raises KeyError(route); a builder's error propagates |
| Navigation.Page.constructor | main.py:67 | a fresh page: the root view at "/", an empty session, no handlers |
| Navigation.Page.HandleRouteChange | main.py:39-51 | the list becomes exactly the route's view, or empty with the exception raised |
| Navigation.Page.Go | main.py:81 | sets the route and, when registered, runs `route_change`; never more than one view afterwards |
| Navigation.Page.HandleViewPop | main.py:53-63 | pop on an empty list or one view raises IndexError; otherwise goes to the route of the view below the top |
| Navigation.Page.Back | main.py:80 | the back gesture runs `view_pop` only when it is registered: then fewer than two views raise IndexError, and otherwise the page goes to the route below the top, with the same view list and outcome as `view_pop` |
| Navigation.BackAfterRouteChange | main.py:47-63 | going back right after any route change always raises IndexError and empties the list |
| LoginControls.Caption | pages/libs/loginControls.py:23 | a missing or empty caption becomes three spaces |
| LoginControls.DropLast | pages/libs/loginControls.py:112 | `[:-1]`: removes the last character; empty stays empty |
| LoginControls.AppendThenDelete | pages/libs/loginControls.py:45 | pressing a digit and then backspace restores the phone text |
| LoginControls.PhoneField.constructor | pages/login.py:232-241 | the phone field starts empty and read-only |
| LoginControls.DialButton.constructor | pages/libs/loginControls.py:16-25 | a key keeps its number and its caption |
| LoginControls.DialButton.InsertDigit | pages/libs/loginControls.py:34-46 | appends the key's digit to the phone text |
| LoginControls.DeleteDigit | pages/libs/loginControls.py:102-113 | removes the last character of the phone text |
| LoginControls.FirstBlank | pages/libs/loginControls.py:166-167 | the first slot holding a blank, or none when all are filled |
| LoginControls.Pressed | pages/libs/loginControls.py:166-174 | a press fills the first blank slot with the digit; nothing changes when all are filled |
| LoginControls.PressKeepsPrefix | pages/libs/loginControls.py:166-192 | presses keep the filled slots a prefix of the five |
| LoginControls.OtpEntry.constructor | pages/libs/loginControls.py:237-264 | five blank slots with the idle border |
| LoginControls.OtpButton.constructor | pages/libs/loginControls.py:140-149 | a code key keeps its number and its caption |
| LoginControls.OtpButton.InsertDigit | pages/libs/loginControls.py:158-192 | fills the first blank slot and colours its border; filling the fifth turns every border green and goes to "/menu" without touching the session, leaving the menu view or the exception raised; a full entry is unchanged |
| Login.DropFirst | pages/login.py:111 | `[1:]`: removes the first character; empty stays empty |
| Login.TileOf | pages/login.py:95-113 | a country entry shows the flag, "name (code)" and the dial code |
| Login.LoginForm.constructor | pages/login.py:201-389 | empty read-only phone, "Country" label, blank zero-size flag, empty sheet, the ten keys with their letters |
| Login.LoginForm.PressKey | pages/libs/loginControls.py:52-55 | a dial-pad press appends that key's digit |
| Login.LoginForm.PressBackspace | pages/libs/loginControls.py:130-132 | backspace removes the last character |
| Login.LoginForm.OpenOtpPage | pages/login.py:26-48 | stores the phone text as `phone_number` and goes to "/otpauth", whose screen quotes that text, or raises the route change's error; the country label, flag, sheet and handlers are unchanged |
| Login.LoginForm.SelectCountry | pages/login.py:50-76 | label, phone text and size-20 flag are set and the sheet closes |
| Login.LoginForm.OpenBottomSheet | pages/login.py:78-117 | opens the sheet and fills it with one entry per country, in file order, only while it is empty |
| Login.LoginForm.ChooseTile | pages/login.py:109-113 | choosing an entry selects its country with the dial code minus its first character; the sheet entries and the busy ring are unchanged |
| ChatDialog.NumDigitsBounds | pages/libs/chatDialog.py:159 | the digit count of `n` places it between two powers of ten |
| ChatDialog.Decimal | pages/libs/chatDialog.py:161 | `str(n)`: as many decimal digits as `n` has, no leading zero |
| ChatDialog.DecimalRoundTrip | pages/libs/chatDialog.py:159-161 | reading the badge text back gives the count |
| ChatDialog.Background | pages/libs/chatDialog.py:86 | pinned chats get the darker background |
| ChatDialog.MuteIcon | pages/libs/chatDialog.py:105 | the speaker icon shows exactly for muted chats |
| ChatDialog.StatusIcon | pages/libs/chatDialog.py:118-120 | no tick with unread messages, else a double tick when seen and a single one otherwise |
| ChatDialog.TrailingOf | pages/libs/chatDialog.py:153-178 | pin wins; else a badge exactly when the count is positive, whose text reads back as the count and whose width is 23 + 5 per digit, grey when muted; else empty |
| ChatDialog.TileOf | pages/libs/chatDialog.py:85-183 | the entry shows the chat's name, time and message with the icons and trailing part above |
| ChatDialog.Overwrite | pages/libs/chatDialog.py:65-75 | the eleven fields take the entry's values, the others are kept |
| ChatDialog.Click | pages/libs/chatDialog.py:56-76 | a missing chat raises KeyError and a non-dict TypeError, changing nothing; otherwise only the chat's eleven fields change and the page goes to "/chat", leaving its view or the exception raised |
| MenuDrawer.BadgeOf | pages/libs/menuDrawer.py:387-406 | a falsy unread value gives no badge; a text gives a badge 20 + 5 per character wide |
| MenuDrawer.AccountOf | pages/libs/menuDrawer.py:370-408 | an account row needs a dict with profile, name and unread |
| MenuDrawer.LoggedAccounts | pages/libs/menuDrawer.py:370 | a list gives its accounts, a string its characters, anything else TypeError |
| MenuDrawer.BuildAccounts | pages/libs/menuDrawer.py:340-408 | the reverse loop inserting at index 0 keeps the list order, with "Add Account" and a divider last; it fails exactly when some account fails, with the last such failure |
| MenuDrawer.InsertAt1 | pages/libs/menuDrawer.py:416-419 | `insert(1, x)`: the first element, then `x`, then the rest; `[x]` for an empty list |
| MenuDrawer.Toggle | pages/libs/menuDrawer.py:36-47 | with the up arrow, drop the element at index 1 and point down; otherwise insert the block at index 1 (giving just the block for an empty list) and point up |
| MenuDrawer.ToggleTwice | pages/libs/menuDrawer.py:28-51 | two presses restore both the drawer and the arrow |
| MenuDrawer.Drawer.constructor | pages/libs/menuDrawer.py:410-419 | the block, not yet present, is inserted under the header with the arrow up |
| MenuDrawer.Drawer.HandleAccounts | pages/libs/menuDrawer.py:28-51 | hides or shows the account block, keeping the drawer invariant |
| MenuDrawer.HeaderOf | pages/libs/menuDrawer.py:115-153 | the header needs profile, has_story, name and phone_number, and raises KeyError for the first missing one |
| MenuDrawer.BuildDrawer | pages/libs/menuDrawer.py:79-421 | the drawer builds exactly when the header keys, `logged_accounts` and every account are valid; then header, block and fixed entries in order, with the arrow up and the account rows followed by "Add Account" and a divider; otherwise the header's error, KeyError or TypeError for `logged_accounts`, or the error of the last malformed account |
| MenuDrawer.SetChatField | pages/libs/menuDrawer.py:72 | `db["chat"][key] = v` needs a dict-valued chat |
| MenuDrawer.CopyField | pages/libs/menuDrawer.py:62 | `db["chat"][k] = db[k]` reads the right-hand side first: a missing `k` raises KeyError(k) even without a chat |
| MenuDrawer.CopyAllEffect | pages/libs/menuDrawer.py:62-71 | the ten copies succeed exactly when every key and a dict-valued chat exist; the chat then holds the session's values; no other session key changes even on failure |
| MenuDrawer.CopyToChat | pages/libs/menuDrawer.py:62 | one copy statement against the page's session |
| MenuDrawer.CopyKeys | pages/libs/menuDrawer.py:62-71 | the copy statements in order leave the session `CopyAll` describes, partial writes included |
| MenuDrawer.OwnProfileSucceeds | pages/libs/menuDrawer.py:53-76 | "My Profile" succeeds exactly when the ten identity keys and a dict-valued chat exist |
| MenuDrawer.OwnProfileKeepsOthers | pages/libs/menuDrawer.py:53-76 | whatever happens, only `chat` and `last_page` can change |
| MenuDrawer.OwnProfileSession | pages/libs/menuDrawer.py:75 | on success the session gains only `last_page`, set to "/menu" |
| MenuDrawer.OwnProfileMarks | pages/libs/menuDrawer.py:72 | on success the chat is the copied chat with `story_seen` false |
| MenuDrawer.OwnProfileChat | pages/libs/menuDrawer.py:62-72 | on success the chat shows one's own identity with the story unseen |
| MenuDrawer.OwnProfileChatKeeps | pages/libs/menuDrawer.py:62-72 | on success the chat gains only the identity keys and `story_seen`, and keeps its other fields |
| MenuDrawer.GotoMyProfile | pages/libs/menuDrawer.py:53-76 | the session afterwards is the one `OwnProfileWrites` describes; an exception stops before navigating; success goes to "/profile", leaving its view or the exception raised |
| Main.Seed | main.py:67-71 | the session becomes the loaded record, entry by entry |
| Main.FletGrm | main.py:18-81 | the session equals the record; when the drawer fails the start-up stops with no handler; otherwise both handlers are registered and the page shows the login view, or no view when some screen cannot build |
| Returns.OpenProfile | pages/chat.py:26-35 | records "/chat" as `last_page` and goes to "/profile", whose screen shows the chat's fields, or raises the route change's error |
| Returns.ProfileBack | pages/profile.py:56 | goes to the recorded `last_page`, leaving its view or the exception raised; KeyError when none, TypeError when not a string, both changing nothing |
| Returns.ChatProfileAndBack | pages/chat.py:34-35 | profile from a chat, then back, lands on "/chat" |
| Returns.OwnProfileAndBack | pages/libs/menuDrawer.py:75-76 | one's own profile from the drawer, then back, lands on "/menu" |

## Left out

- Layout, styling, colours, sizes and the `page.update()` / `control.update()` calls. They draw on screen and change no modelled state.
- The `time.sleep` delays in the login and code-entry callbacks. They do not change state.
- File reads: `data/self.json`, `data/chats.json`, `data/countries.json` and the message files are inputs. The session record is a `Database`; the other files are a `DataFiles` value of typed records, taken to be well-formed. A missing message file is a missing map entry.
- The random colour palette of the profile screen and the random avatar gradients. They affect only colours.
- Flet's own event dispatch: `page.go` runs `route_change` synchronously, and the back gesture calls `on_view_pop` with the view list as it is.
- Navigation.Page.constructor: the page starts with one root view whose route is "/"; Flet's own initial view carries no route, which the model does not represent.
- Views.MenuLayout, Menu.BuildMenu, Menu.FillTab, ChatDialog.TileOf: a chat without a picture shows the first letter of its name (pages/libs/pfp.py:59 and pages/libs/pfp.py:105), which raises IndexError for an empty name; chat names are taken to be non-empty, so that failure is not modelled.
- The profile screen's other controls, the code screen's back button and the menu's decorative buttons. They do not change the session.
- Chat.Strip: Python's whitespace set is modelled for ASCII and Latin-1 only; Unicode spaces above U+00FF are not stripped.
- Views.Folders: a dict-valued `folders` (iterated by its keys in Python) and a list holding non-strings are both modelled as TypeError.
- Views.MessageFile: an `id` that is not a string is treated as a missing message file.
- Views.ProfileLayout: the screen is modelled as the chat's fields rather than the widgets built from them.
- MenuDrawer.LoggedAccounts: a dict-valued `logged_accounts` is modelled as TypeError (slicing a dict).
- MenuDrawer.BadgeOf: a truthy `unread` value that is not a string is modelled as TypeError (`len` of a number).
- Returns.ProfileBack: a `last_page` that is not a string is modelled as TypeError.
- Chat.ChatPage.constructor: the chat screen that `view_handler` builds is a value (`ChatScreen`); the `ChatPage` class models the same screen with its callbacks, not the same object.
- `page.drawer = page.menu_drawer` in `menu_layout` only attaches the drawer built at start-up. The menu screen value does not carry it.
