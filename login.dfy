/** The login form of `pages/login.py`: phone field with its dial pad, the
    country picker sheet, and the submit button that opens the code screen. */
module Login {
  import opened Data
  import opened Views
  import Navigation
  import opened LoginControls

  /** The keys of the dial pad, top-left to bottom-right, with their letters. */
  const PadKeys: seq<(string, Option<string>)> := [
    ("1", None), ("2", Some("ABC")), ("3", Some("DEF")),
    ("4", Some("GHI")), ("5", Some("JKL")), ("6", Some("MNO")),
    ("7", Some("PQRS")), ("8", Some("TUV")), ("9", Some("WXYZ")),
    ("0", Some("+"))]

  /** `s[1:]`: the text without its first character; empty stays empty. */
  function DropFirst(s: string): (r: string)
    ensures s == "" ==> r == ""
    ensures s != "" ==> [s[0]] + r == s
  {
    if s == "" then "" else s[1..]
  }

  /** One entry of the country sheet. */
  datatype CountryTile = CountryTile(flag: string, title: string, trailing: string, country: Country)

  /** The sheet entry for a country: flag, "name (code)", and the dial code. */
  function TileOf(c: Country): (t: CountryTile)
    ensures t.flag == c.flag && t.trailing == c.dialCode && t.country == c
    ensures t.title == c.name + " (" + c.code + ")"
  {
    CountryTile(c.flag, c.name + " (" + c.code + ")", c.dialCode, c)
  }

  class LoginForm {
    const countries: seq<Country>
    const phone: PhoneField
    const pad: seq<DialButton>
    var countryName: string
    var flag: string
    var flagSize: int
    var sheetOpen: bool
    var tiles: seq<CountryTile>
    var submitBusy: bool

    /** The sheet holds one entry per country, in file order. */
    ghost predicate Listed()
      reads this
    {
      |tiles| == |countries| && forall i :: 0 <= i < |countries| ==> tiles[i] == TileOf(countries[i])
    }

    /** The sheet is either still empty or completely filled. */
    ghost predicate Valid()
      reads this
    {
      tiles == [] || Listed()
    }

    /** `login_layout`: an empty read-only phone field, the "Country" label, a
        blank hidden flag, an empty country sheet and the ten-key pad. */
    constructor (countries: seq<Country>)
      ensures this.countries == countries
      ensures fresh(phone) && phone.value == "" && phone.readOnly
      ensures |pad| == |PadKeys|
      ensures forall i :: 0 <= i < |pad| ==> pad[i].number == PadKeys[i].0 && pad[i].caption == Caption(PadKeys[i].1)
      ensures countryName == "Country" && flag == " " && flagSize == 0
      ensures !sheetOpen && tiles == [] && !submitBusy
      ensures Valid()
    {
      this.countries := countries;
      phone := new PhoneField();
      var k1 := new DialButton("1", None);
      var k2 := new DialButton("2", Some("ABC"));
      var k3 := new DialButton("3", Some("DEF"));
      var k4 := new DialButton("4", Some("GHI"));
      var k5 := new DialButton("5", Some("JKL"));
      var k6 := new DialButton("6", Some("MNO"));
      var k7 := new DialButton("7", Some("PQRS"));
      var k8 := new DialButton("8", Some("TUV"));
      var k9 := new DialButton("9", Some("WXYZ"));
      var k0 := new DialButton("0", Some("+"));
      pad := [k1, k2, k3, k4, k5, k6, k7, k8, k9, k0];
      countryName := "Country";
      flag := " ";
      flagSize := 0;
      sheetOpen := false;
      tiles := [];
      submitBusy := false;
    }

    /** A press on the `k`-th key of the dial pad. */
    method PressKey(k: nat)
      requires k < |pad|
      modifies phone
      ensures phone.value == old(phone.value) + pad[k].number
    {
      pad[k].InsertDigit(phone);
    }

    /** A press on the backspace key. */
    method PressBackspace()
      modifies phone
      ensures phone.value == DropLast(old(phone.value))
    {
      DeleteDigit(phone);
    }

    /** `open_otp_page`: shows the busy ring, stores the phone text as
        `database["phone_number"]` and opens the code screen, which quotes it. */
    method OpenOtpPage(page: Navigation.Page) returns (outcome: Navigation.Outcome)
      modifies this, page
      ensures submitBusy && phone.value == old(phone.value)
      ensures page.database == old(page.database)["phone_number" := Str(phone.value)]
      ensures page.route == "/otpauth"
      ensures page.onRouteChange && Navigation.RouteChange(page.database, page.files, "/otpauth").Ok? ==>
                page.views == [View("/otpauth", OtpauthScreen(Str(phone.value)))] && outcome.Done?
      ensures page.onRouteChange && Navigation.RouteChange(page.database, page.files, "/otpauth").Err? ==>
                page.views == [] && outcome == Navigation.Raised(Navigation.RouteChange(page.database, page.files, "/otpauth").error)
      ensures !page.onRouteChange ==> page.views == old(page.views) && outcome == Navigation.Done
      ensures page.onRouteChange == old(page.onRouteChange) && page.onViewPop == old(page.onViewPop)
      ensures countryName == old(countryName) && flag == old(flag) && flagSize == old(flagSize)
      ensures sheetOpen == old(sheetOpen) && tiles == old(tiles)
    {
      submitBusy := true;
      page.database := page.database["phone_number" := Str(phone.value)];
      outcome := page.Go("/otpauth");
      if page.onRouteChange && Navigation.RouteChange(page.database, page.files, "/otpauth").Ok? {
        var handler := ViewHandler(page.database, page.files);
        assert handler.Ok?;
        assert handler.value["/otpauth"].screen == OtpauthLayout(page.database).value;
      }
    }

    /** `select_country`: the label shows the name, the flag shows at size 20,
        the phone text is replaced by the code and the sheet closes. */
    method SelectCountry(name: string, code: string, flagIcon: string)
      modifies this, phone
      ensures countryName == name && phone.value == code
      ensures flag == flagIcon && flagSize == 20 && !sheetOpen
      ensures tiles == old(tiles) && submitBusy == old(submitBusy)
    {
      countryName := name;
      phone.value := code;
      flag := flagIcon;
      flagSize := 20;
      sheetOpen := false;
    }

    /** `open_bottom_sheet`: opens the sheet and fills it, in file order, only
        while it is still empty. */
    method OpenBottomSheet()
      requires Valid()
      modifies this
      ensures sheetOpen && Valid() && Listed()
      ensures old(tiles) != [] ==> tiles == old(tiles)
      ensures countryName == old(countryName) && flag == old(flag) && flagSize == old(flagSize)
      ensures submitBusy == old(submitBusy)
    {
      sheetOpen := true;
      if |tiles| == 0 {
        for i := 0 to |countries|
          invariant |tiles| == i
          invariant forall j :: 0 <= j < i ==> tiles[j] == TileOf(countries[j])
          invariant sheetOpen && submitBusy == old(submitBusy)
          invariant countryName == old(countryName) && flag == old(flag) && flagSize == old(flagSize)
        {
          tiles := tiles + [TileOf(countries[i])];
        }
      }
    }

    /** A click on the `i`-th sheet entry: selects its country with the dial
        code minus its first character as the phone text. */
    method ChooseTile(i: nat)
      requires i < |tiles|
      modifies this, phone
      ensures var c := old(tiles[i]).country;
              countryName == c.name && phone.value == DropFirst(c.dialCode) && flag == c.flag && flagSize == 20
      ensures !sheetOpen && tiles == old(tiles) && submitBusy == old(submitBusy)
    {
      var c := tiles[i].country;
      SelectCountry(c.name, DropFirst(c.dialCode), c.flag);
    }
  }
}
