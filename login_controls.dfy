/** The input controls of `pages/libs/loginControls.py`: the phone text field
    and its dial pad, and the five-slot code entry and its pad. */
module LoginControls {
  import opened Data
  import Navigation

  /** A pad button's letters; a missing or empty caption becomes three spaces. */
  function Caption(text: Option<string>): (r: string)
    ensures text.None? || text.value == "" ==> r == "   "
    ensures text.Some? && text.value != "" ==> r == text.value
    ensures r != ""
  {
    if text.Some? && text.value != "" then text.value else "   "
  }

  /** `s[:-1]`: the text without its last character; empty stays empty. */
  function DropLast(s: string): (r: string)
    ensures s == "" ==> r == ""
    ensures s != "" ==> r + [s[|s| - 1]] == s
  {
    if s == "" then "" else s[..|s| - 1]
  }

  /** Appending one character and then backspacing gives back the text. */
  lemma AppendThenDelete(s: string, digit: string)
    requires |digit| == 1
    ensures DropLast(s + digit) == s
  {
    assert (s + digit)[..|s + digit| - 1] == s;
  }

  /** The phone-number text field. */
  class PhoneField {
    var value: string
    const readOnly: bool

    /** The login form's field starts empty and read-only. */
    constructor ()
      ensures value == "" && readOnly
    {
      value := "";
      readOnly := true;
    }
  }

  /** A digit key of the login dial pad. */
  class DialButton {
    const number: string
    const caption: string

    constructor (number: string, text: Option<string>)
      ensures this.number == number && caption == Caption(text)
    {
      this.number := number;
      caption := Caption(text);
    }

    /** `insert_digit`: appends the key's digit to the phone text. */
    method InsertDigit(field: PhoneField)
      modifies field
      ensures field.value == old(field.value) + number
    {
      field.value := field.value + number;
    }
  }

  /** `delete_digit`, the backspace key: removes the last character. */
  method DeleteDigit(field: PhoneField)
    modifies field
    ensures field.value == DropLast(old(field.value))
  {
    if field.value != "" {
      field.value := field.value[..|field.value| - 1];
    }
  }

  const Blank: string := " "
  const IdleBorder: string := "#66888e94"
  const FilledBorder: string := "#489ddf"
  const DoneBorder: string := "#34b118"

  /** The position of the first blank slot, scanning in order. */
  function FirstBlank(slots: seq<string>): (r: Option<nat>)
    ensures r.None? <==> forall i :: 0 <= i < |slots| ==> slots[i] != Blank
    ensures r.Some? ==> r.value < |slots| && slots[r.value] == Blank
    ensures r.Some? ==> forall i :: 0 <= i < r.value ==> slots[i] != Blank
  {
    if slots == [] then None
    else if slots[0] == Blank then Some(0)
    else match FirstBlank(slots[1..])
      case None => None
      case Some(i) => Some(i + 1)
  }

  /** The slot contents after pressing a digit key. */
  function Pressed(slots: seq<string>, digit: string): (r: seq<string>)
    ensures |r| == |slots|
    ensures FirstBlank(slots).None? ==> r == slots
    ensures FirstBlank(slots).Some? ==> r == slots[FirstBlank(slots).value := digit]
  {
    match FirstBlank(slots)
    case None => slots
    case Some(i) => slots[i := digit]
  }

  /** The filled slots come first: a blank slot is followed by blank slots only. */
  predicate PrefixFilled(slots: seq<string>) {
    forall i, j :: 0 <= i < j < |slots| && slots[i] == Blank ==> slots[j] == Blank
  }

  /** Pressing a (non-blank) digit keeps the filled slots a prefix. */
  lemma PressKeepsPrefix(slots: seq<string>, digit: string)
    requires PrefixFilled(slots) && digit != Blank
    ensures PrefixFilled(Pressed(slots, digit))
  {
    var r := Pressed(slots, digit);
    match FirstBlank(slots)
    case None =>
    case Some(k) =>
      forall i, j | 0 <= i < j < |r| && r[i] == Blank
        ensures r[j] == Blank
      {
        assert i != k && slots[i] == Blank;
        assert k < i;
      }
  }

  /** The five code slots of the verification screen. */
  class OtpEntry {
    var slots: seq<string>
    var borders: seq<string>

    /** `OTP.build`, five times: every slot blank with the idle border. */
    constructor ()
      ensures slots == [Blank, Blank, Blank, Blank, Blank]
      ensures borders == [IdleBorder, IdleBorder, IdleBorder, IdleBorder, IdleBorder]
      ensures PrefixFilled(slots)
    {
      slots := [Blank, Blank, Blank, Blank, Blank];
      borders := [IdleBorder, IdleBorder, IdleBorder, IdleBorder, IdleBorder];
    }
  }

  /** A digit key of the code pad. */
  class OtpButton {
    const number: string
    const caption: string

    constructor (number: string, text: Option<string>)
      ensures this.number == number && caption == Caption(text)
    {
      this.number := number;
      caption := Caption(text);
    }

    /** `insert_digit`: fills the first blank slot and marks its border; filling
        the fifth slot turns every border green and opens the menu. */
    method InsertDigit(entry: OtpEntry, page: Navigation.Page) returns (navigated: Option<Navigation.Outcome>)
      requires |entry.borders| == |entry.slots|
      modifies entry, page
      ensures entry.slots == Pressed(old(entry.slots), number)
      ensures |entry.borders| == |entry.slots|
      ensures FirstBlank(old(entry.slots)).None? ==>
                entry.borders == old(entry.borders) && navigated.None? && unchanged(page)
      ensures FirstBlank(old(entry.slots)).Some? && FirstBlank(old(entry.slots)).value != 4 ==>
                entry.borders == old(entry.borders)[FirstBlank(old(entry.slots)).value := FilledBorder]
                && navigated.None? && unchanged(page)
      ensures FirstBlank(old(entry.slots)) == Some(4) ==>
                (forall i :: 0 <= i < |entry.borders| ==> entry.borders[i] == DoneBorder)
                && navigated.Some? && page.route == "/menu" && page.database == old(page.database)
      ensures page.onRouteChange == old(page.onRouteChange) && page.onViewPop == old(page.onViewPop)
      ensures FirstBlank(old(entry.slots)) == Some(4) && !page.onRouteChange ==>
                page.views == old(page.views) && navigated == Some(Navigation.Done)
      ensures FirstBlank(old(entry.slots)) == Some(4) && page.onRouteChange ==>
                match Navigation.RouteChange(page.database, page.files, "/menu")
                case Ok(v) => page.views == [v] && navigated == Some(Navigation.Done)
                case Err(e) => page.views == [] && navigated == Some(Navigation.Raised(e))
    {
      navigated := None;
      for idx := 1 to |entry.slots| + 1
        invariant entry.slots == old(entry.slots) && entry.borders == old(entry.borders)
        invariant forall i :: 0 <= i < idx - 1 ==> entry.slots[i] != Blank
        invariant navigated.None? && unchanged(page)
      {
        if entry.slots[idx - 1] == Blank {
          assert FirstBlank(old(entry.slots)) == Some(idx - 1);
          entry.slots := entry.slots[idx - 1 := number];
          entry.borders := entry.borders[idx - 1 := FilledBorder];
          if idx == 5 {
            var k := 0;
            while k < |entry.borders|
              invariant 0 <= k <= |entry.borders| == |entry.slots|
              invariant forall i :: 0 <= i < k ==> entry.borders[i] == DoneBorder
              invariant entry.slots == Pressed(old(entry.slots), number)
              invariant unchanged(page)
            {
              entry.borders := entry.borders[k := DoneBorder];
              k := k + 1;
            }
            var outcome := page.Go("/menu");
            navigated := Some(outcome);
          }
          return;
        }
      }
    }
  }
}
