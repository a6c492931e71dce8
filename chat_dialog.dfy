/** One entry of the chat list (`pages/libs/chatDialog.py`): the icons and badge
    it shows, and the session writes its click makes before opening the chat. */
module ChatDialog {
  import opened Data
  import opened Views
  import Navigation

  /** Ten to the power `k`. */
  function Pow10(k: nat): (p: nat)
    ensures p >= 1
  {
    if k == 0 then 1 else 10 * Pow10(k - 1)
  }

  /** The number of decimal digits of `n`. */
  function NumDigits(n: nat): (d: nat)
    ensures d >= 1
  {
    if n < 10 then 1 else 1 + NumDigits(n / 10)
  }

  /** `n` has `NumDigits(n)` digits: it lies between the two powers of ten. */
  lemma {:induction false} NumDigitsBounds(n: nat)
    ensures n < Pow10(NumDigits(n))
    ensures n > 0 ==> Pow10(NumDigits(n) - 1) <= n
  {
    if n >= 10 {
      NumDigitsBounds(n / 10);
    }
  }

  /** `str(n)` for a non-negative integer. */
  function Decimal(n: nat): (s: string)
    ensures |s| == NumDigits(n)
    ensures forall i :: 0 <= i < |s| ==> '0' <= s[i] <= '9'
    ensures n > 0 ==> s[0] != '0'
  {
    var digit := ['0' + (n % 10) as char];
    if n < 10 then digit else Decimal(n / 10) + digit
  }

  /** The value of a string of decimal digits. */
  function DigitsValue(s: string): nat
    requires forall i :: 0 <= i < |s| ==> '0' <= s[i] <= '9'
  {
    if s == [] then 0 else 10 * DigitsValue(s[..|s| - 1]) + (s[|s| - 1] - '0') as nat
  }

  /** Reading the badge text back gives the count. */
  lemma {:induction false} DecimalRoundTrip(n: nat)
    ensures DigitsValue(Decimal(n)) == n
  {
    var s := Decimal(n);
    if n >= 10 {
      DecimalRoundTrip(n / 10);
      assert s[..|s| - 1] == Decimal(n / 10);
    }
  }

  /** The tile background: darker blue for pinned chats. */
  function Background(pinned: bool): (c: string)
    ensures c == "#1d2c38" <==> pinned
  {
    if pinned then "#1d2c38" else "#1a2631"
  }

  /** The icon after the name: a crossed speaker for muted chats. */
  function MuteIcon(muted: bool): (icon: string)
    ensures icon == "volume_off" <==> muted
    ensures !muted ==> icon == ""
  {
    if muted then "volume_off" else ""
  }

  /** The delivery icon before the time: none while there are unread messages,
      a double tick when seen, a single tick otherwise. */
  function StatusIcon(count: int, seen: bool): (icon: string)
    ensures icon == "" <==> count > 0
    ensures icon == "done_all" <==> count <= 0 && seen
    ensures icon == "check" <==> count <= 0 && !seen
  {
    if count > 0 then "" else if seen then "done_all" else "check"
  }

  /** The right-hand end of the second row. */
  datatype Trailing =
    | PinIcon
    | CountBadge(text: string, width: int, color: string)
    | EmptyText

  /** The pin wins over the count; otherwise a badge as wide as the count's
      digits require, grey for muted chats and blue otherwise. */
  function TrailingOf(pinned: bool, muted: bool, count: int): (t: Trailing)
    ensures t == PinIcon <==> pinned
    ensures t.CountBadge? <==> !pinned && count > 0
    ensures t == EmptyText <==> !pinned && count <= 0
    ensures t.CountBadge? ==>
              && (forall i :: 0 <= i < |t.text| ==> '0' <= t.text[i] <= '9')
              && DigitsValue(t.text) == count
              && t.width == 23 + 5 * NumDigits(count)
              && (t.color == "#22ffffff" <==> muted)
              && (!muted ==> t.color == "#52b4ff")
  {
    if pinned then PinIcon
    else if count > 0 then
      var text := Decimal(count);
      DecimalRoundTrip(count);
      CountBadge(text, 23 + 5 * |text|, if muted then "#22ffffff" else "#52b4ff")
    else EmptyText
  }

  /** What `ChatDialog.build` shows for a chat. */
  datatype Tile = Tile(
    background: string, name: string, muteIcon: string, statusIcon: string,
    time: string, message: string, trailing: Trailing)

  function TileOf(d: Dialog): (t: Tile)
    ensures t.name == d.name && t.time == d.time && t.message == d.message
    ensures t.background == Background(d.pinned) && t.muteIcon == MuteIcon(d.muted)
    ensures t.statusIcon == StatusIcon(d.count, d.seen)
    ensures t.trailing == TrailingOf(d.pinned, d.muted, d.count)
  {
    Tile(Background(d.pinned), d.name, MuteIcon(d.muted), StatusIcon(d.count, d.seen),
         d.time, d.message, TrailingOf(d.pinned, d.muted, d.count))
  }

  /** The eleven `database["chat"]` keys a click overwrites. */
  const ClickKeys: set<string> := {
    "id", "profile", "name", "phone_number", "username", "birth",
    "status", "bio", "has_story", "channel", "story_seen"}

  /** The chat's dict holds the dialog's values under the eleven keys. */
  predicate ShowsDialog(fields: map<string, Value>, d: Dialog)
    requires ClickKeys <= fields.Keys
  {
    && fields["id"] == Str(d.chatId) && fields["profile"] == d.profile
    && fields["name"] == Str(d.name) && fields["phone_number"] == Str(d.phoneNumber)
    && fields["username"] == Str(d.username) && fields["birth"] == Str(d.birth)
    && fields["status"] == Str(d.status) && fields["bio"] == Str(d.bio)
    && fields["has_story"] == Bool(d.hasStory) && fields["channel"] == d.channel
    && fields["story_seen"] == Bool(d.storySeen)
  }

  /** The eleven assignments of `click_function` to the chat's dict. */
  method Overwrite(fields: map<string, Value>, d: Dialog) returns (r: map<string, Value>)
    ensures r.Keys == fields.Keys + ClickKeys
    ensures ShowsDialog(r, d)
    ensures forall k :: k in fields && k !in ClickKeys ==> r[k] == fields[k]
  {
    r := fields;
    r := r["id" := Str(d.chatId)];
    r := r["profile" := d.profile];
    r := r["name" := Str(d.name)];
    r := r["phone_number" := Str(d.phoneNumber)];
    r := r["username" := Str(d.username)];
    r := r["birth" := Str(d.birth)];
    r := r["status" := Str(d.status)];
    r := r["bio" := Str(d.bio)];
    r := r["has_story" := Bool(d.hasStory)];
    r := r["channel" := d.channel];
    r := r["story_seen" := Bool(d.storySeen)];
  }

  /** `click_function`: overwrites the eleven fields of `database["chat"]`,
      keeping every other field and session key, and opens the chat screen. */
  method Click(d: Dialog, page: Navigation.Page) returns (outcome: Navigation.Outcome)
    modifies page
    ensures "chat" !in old(page.database) ==>
              outcome == Navigation.Raised(KeyError("chat")) && unchanged(page)
    ensures "chat" in old(page.database) && !old(page.database)["chat"].Obj? ==>
              outcome == Navigation.Raised(TypeError) && unchanged(page)
    ensures "chat" in old(page.database) && old(page.database)["chat"].Obj? ==>
              && page.database.Keys == old(page.database).Keys
              && (forall k :: k in page.database && k != "chat" ==> page.database[k] == old(page.database)[k])
              && page.database["chat"].Obj?
              && page.database["chat"].fields.Keys == old(page.database)["chat"].fields.Keys + ClickKeys
              && ShowsDialog(page.database["chat"].fields, d)
              && (forall k :: k in old(page.database)["chat"].fields && k !in ClickKeys ==>
                    page.database["chat"].fields[k] == old(page.database)["chat"].fields[k])
              && page.route == "/chat"
              && (page.onRouteChange ==> |page.views| <= 1)
    ensures page.onRouteChange == old(page.onRouteChange) && page.onViewPop == old(page.onViewPop)
    ensures "chat" in old(page.database) && old(page.database)["chat"].Obj? && !page.onRouteChange ==>
              page.views == old(page.views) && outcome == Navigation.Done
    ensures "chat" in old(page.database) && old(page.database)["chat"].Obj? && page.onRouteChange ==>
              match Navigation.RouteChange(page.database, page.files, "/chat")
              case Ok(v) => page.views == [v] && outcome == Navigation.Done
              case Err(e) => page.views == [] && outcome == Navigation.Raised(e)
  {
    if "chat" !in page.database {
      return Navigation.Raised(KeyError("chat"));
    }
    var db := page.database["chat"];
    if !db.Obj? {
      return Navigation.Raised(TypeError);
    }
    var fields := Overwrite(db.fields, d);
    page.database := page.database["chat" := Obj(fields)];
    outcome := page.Go("/chat");
  }
}
