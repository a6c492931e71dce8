/** The conversation screen (`pages/chat.py`): the message history loaded from
    the chat's message file, the greeting shown when there is none, and the
    input bar's send and focus handling. */
module Chat {
  import opened Data

  /** An entry of the history list (a reversed list view: index 0 is the bottom). */
  datatype Entry =
    | Spacer                       // the 5-pixel empty text around a time chip
    | TimeChip(time: string)       // the centred time of a "system" record
    | Bubble(message: string, time: string, role: string, seen: bool)

  /** The screen's top-level controls. */
  datatype ChatControl = AppBar | History | Greeting | BottomBar

  /** The state of the screen that its callbacks change. */
  datatype ChatView = ChatView(controls: seq<ChatControl>, history: seq<Entry>, historyExpands: bool)

  /** Without a greeting. */
  const Plain: seq<ChatControl> := [AppBar, History, BottomBar]
  /** With the greeting inserted just before the bottom bar. */
  const Greeted: seq<ChatControl> := [AppBar, History, Greeting, BottomBar]

  /** The entries one stored record adds at the front of the history. */
  function EntriesOf(m: MessageRecord): seq<Entry> {
    if m.role == "system" then [Spacer, TimeChip(m.time), Spacer]
    else [Bubble(m.message, m.time, m.role, m.seen)]
  }

  /** The history after inserting the entries of every record at index 0, in
      file order. */
  function HistoryOf(msgs: seq<MessageRecord>): seq<Entry> {
    if msgs == [] then []
    else EntriesOf(msgs[|msgs| - 1]) + HistoryOf(msgs[..|msgs| - 1])
  }

  function SystemCount(msgs: seq<MessageRecord>): nat {
    if msgs == [] then 0
    else SystemCount(msgs[..|msgs| - 1]) + (if msgs[|msgs| - 1].role == "system" then 1 else 0)
  }

  /** Records come out in reverse file order: the history of `a + b` is that of
      `b` followed by that of `a`. */
  lemma {:induction false} HistoryOfConcat(a: seq<MessageRecord>, b: seq<MessageRecord>)
    ensures HistoryOf(a + b) == HistoryOf(b) + HistoryOf(a)
  {
    if b == [] {
      assert a + b == a;
    } else {
      var init := b[..|b| - 1];
      assert (a + b)[..|a + b| - 1] == a + init;
      HistoryOfConcat(a, init);
    }
  }

  /** A "system" record adds three entries, any other one. */
  lemma {:induction false} HistoryLength(msgs: seq<MessageRecord>)
    ensures |HistoryOf(msgs)| == |msgs| + 2 * SystemCount(msgs)
  {
    if msgs != [] {
      HistoryLength(msgs[..|msgs| - 1]);
    }
  }

  /** Without "system" records, entry `k` is the bubble of record `|msgs| - 1 - k`. */
  lemma {:induction false} HistoryReversed(msgs: seq<MessageRecord>)
    requires SystemCount(msgs) == 0
    ensures |HistoryOf(msgs)| == |msgs|
    ensures forall k :: 0 <= k < |msgs| ==>
              var m := msgs[|msgs| - 1 - k];
              HistoryOf(msgs)[k] == Bubble(m.message, m.time, m.role, m.seen)
  {
    if msgs != [] {
      var init := msgs[..|msgs| - 1];
      HistoryReversed(init);
      forall k | 1 <= k < |msgs|
        ensures HistoryOf(msgs)[k] == HistoryOf(init)[k - 1]
      {
      }
    }
  }

  /** The history-loading loop of `chat_layout`. */
  method LoadHistory(msgs: seq<MessageRecord>) returns (history: seq<Entry>)
    ensures history == HistoryOf(msgs)
  {
    history := [];
    for i := 0 to |msgs|
      invariant history == HistoryOf(msgs[..i])
    {
      var message := msgs[i];
      if message.role == "system" {
        history := [Spacer] + history;
        history := [TimeChip(message.time)] + history;
        history := [Spacer] + history;
      } else {
        history := [Bubble(message.message, message.time, message.role, message.seen)] + history;
      }
      assert msgs[..i + 1][..i] == msgs[..i];
    }
    assert msgs[..|msgs|] == msgs;
  }

  /** The screen `chat_layout` builds from the chat's message file (`None` when the
      file is missing, which reads as an empty history). */
  function InitialView(file: Option<seq<MessageRecord>>): (v: ChatView)
    ensures file.None? || file.value == [] ==> v == ChatView(Greeted, [], false)
    ensures file.Some? && file.value != [] ==> v == ChatView(Plain, HistoryOf(file.value), true)
  {
    var msgs := if file.Some? then file.value else [];
    if msgs != [] then ChatView(Plain, HistoryOf(msgs), true)
    else ChatView(Greeted, [], false)
  }

  /** Characters Python's `str.strip()` removes (the ASCII and Latin-1 ones). */
  predicate IsSpace(c: char) {
    c == ' ' || ('\t' <= c <= '\r') || ('\U{1c}' <= c <= '\U{1f}') || c == '\U{85}' || c == '\U{a0}'
  }

  /** The first position at or after `i` that does not hold whitespace
      (the length of the text when there is none). */
  function SkipSpaces(s: string, i: nat): (k: nat)
    requires i <= |s|
    ensures i <= k <= |s|
    ensures forall j :: i <= j < k ==> IsSpace(s[j])
    ensures k == |s| || !IsSpace(s[k])
    decreases |s| - i
  {
    if i < |s| && IsSpace(s[i]) then SkipSpaces(s, i + 1) else i
  }

  /** Where the text between `lo` and `e` ends once its trailing whitespace
      is dropped. */
  function SkipSpacesBack(s: string, lo: nat, e: nat): (m: nat)
    requires lo <= e <= |s|
    ensures lo <= m <= e
    ensures forall j :: m <= j < e ==> IsSpace(s[j])
    ensures m == lo || !IsSpace(s[m - 1])
  {
    if lo < e && IsSpace(s[e - 1]) then SkipSpacesBack(s, lo, e - 1) else e
  }

  /** `str.strip()`: one contiguous piece of the text, with only whitespace
      removed before and after it; it starts and ends with a non-space, and
      only a text made of whitespace strips to nothing. */
  function Strip(s: string): (r: string)
    ensures var k := SkipSpaces(s, 0);
            && k + |r| <= |s| && r == s[k..k + |r|]
            && (forall j :: 0 <= j < k ==> IsSpace(s[j]))
            && (forall j :: k + |r| <= j < |s| ==> IsSpace(s[j]))
    ensures r == "" || (!IsSpace(r[0]) && !IsSpace(r[|r| - 1]))
    ensures r == "" <==> (forall j :: 0 <= j < |s| ==> IsSpace(s[j]))
  {
    var k := SkipSpaces(s, 0);
    s[k..SkipSpacesBack(s, k, |s|)]
  }

  /** The greeting sits third in the greeted layout, and removing it gives
      the plain layout, which has none. */
  lemma GreetingPosition()
    ensures IndexOf(Greeted, Greeting) == Some(2) && IndexOf(Plain, Greeting).None?
    ensures Greeted[..2] + Greeted[3..] == Plain
  {
    assert Greeted[2] == Greeting && Greeting !in Greeted[..2];
  }

  /** The part of `chat_layout` the callbacks act on: controls, history and the
      widths of the three input-bar buttons. */
  class ChatPage {
    var controls: seq<ChatControl>
    var history: seq<Entry>
    var historyExpands: bool
    var input: string
    var attachWidth: int
    var micWidth: int
    var sendWidth: int

    /** The greeting is on screen exactly while the history is hidden, and only
        an empty history is hidden. */
    ghost predicate Valid()
      reads this
    {
      && (controls == Plain || controls == Greeted)
      && (controls == Greeted <==> !historyExpands)
      && (controls == Greeted ==> history == [])
    }

    ghost function View(): ChatView
      reads this
    {
      ChatView(controls, history, historyExpands)
    }

    /** Builds the screen from the chat's message file. */
    constructor (file: Option<seq<MessageRecord>>)
      ensures Valid()
      ensures View() == InitialView(file)
      ensures input == "" && attachWidth == 40 && micWidth == 40 && sendWidth == 0
    {
      controls := Plain;
      history := [];
      historyExpands := true;
      input := "";
      attachWidth, micWidth, sendWidth := 40, 40, 0;
      new;
      var msgs := if file.Some? then file.value else [];
      if msgs != [] {
        history := LoadHistory(msgs);
      } else {
        historyExpands := false;
        controls := controls[..|controls| - 1] + [Greeting] + controls[|controls| - 1..];
      }
    }

    /** The user editing the input field (done by the text field itself). */
    method Type(text: string)
      modifies this
      ensures input == text
      ensures View() == old(View()) && attachWidth == old(attachWidth)
      ensures micWidth == old(micWidth) && sendWidth == old(sendWidth)
    {
      input := text;
    }

    /** `send_message`: a non-empty input becomes a new own bubble at the bottom,
        the input is cleared and the greeting, if still shown, is removed. */
    method SendMessage()
      requires Valid()
      modifies this
      ensures Valid()
      ensures old(input) == "" ==> View() == old(View()) && input == old(input)
      ensures old(input) != "" ==>
                && history == [Bubble(Strip(old(input)), "00:00 AM", "self", false)] + old(history)
                && input == ""
                && controls == Plain && historyExpands
      ensures old(input) != "" && old(controls) == Plain ==> controls == old(controls)
      ensures attachWidth == old(attachWidth) && micWidth == old(micWidth) && sendWidth == old(sendWidth)
    {
      var msg := input;
      if msg != "" {
        history := [Bubble(Strip(msg), "00:00 AM", "self", false)] + history;
        input := "";
        var target := IndexOf(controls, Greeting);
        GreetingPosition();
        if target.Some? {
          controls := controls[..target.value] + controls[target.value + 1..];
          historyExpands := true;
        }
      }
    }

    /** `change_input_actions`: focus shows only the send button; blur brings
        back attach and microphone when the input is empty. */
    method ChangeInputActions(mode: string)
      modifies this
      ensures mode == "focus" ==> attachWidth == 0 && micWidth == 0 && sendWidth == 40
      ensures mode != "focus" && input == "" ==> attachWidth == 40 && micWidth == 40 && sendWidth == 0
      ensures mode != "focus" && input != "" ==>
                attachWidth == old(attachWidth) && micWidth == old(micWidth) && sendWidth == old(sendWidth)
      ensures View() == old(View()) && input == old(input)
    {
      if mode == "focus" {
        attachWidth := 0;
        micWidth := 0;
        sendWidth := 40;
      } else if input == "" {
        attachWidth := 40;
        micWidth := 40;
        sendWidth := 0;
      }
    }
  }
}
