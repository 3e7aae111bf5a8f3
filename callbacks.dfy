/** The callback data of the settings keyboard (`settings_keyboard`,
    main.py:196-209) and its parsing in `cb_set_logo` and `cb_set_lim`
    (main.py:222-237). */
module Callbacks {
  import opened Wrappers
  import opened Text
  import opened Preferences

  const LOGO_PREFIX := "set_logo"
  const LIMIT_PREFIX := "set_lim"

  /** What a settings button asks for. */
  datatype Callback = SetLogo(show: bool) | SetLimit(limit: int)

  /** The `callback_data` of a button: `set_logo:<int(show)>` or `set_lim:<n>`. */
  function Encode(cb: Callback): string
  {
    match cb
    case SetLogo(show) => LOGO_PREFIX + ":" + IntToDecimal(if show then 1 else 0)
    case SetLimit(n) => LIMIT_PREFIX + ":" + IntToDecimal(n)
  }

  /** `bool(int(data.split(":")[1]))` in `cb_set_logo`; None where that raises. */
  function LogoValue(data: string): Option<bool>
  {
    match SecondField(data)
    case None => None
    case Some(field) =>
      match ParseInt(field)
      case None => None
      case Some(v) => Some(v != 0)
  }

  /** `int(data.split(":")[1])` in `cb_set_lim`; None where that raises. */
  function LimitValue(data: string): Option<int>
  {
    match SecondField(data)
    case None => None
    case Some(field) => ParseInt(field)
  }

  /** The dispatch on `F.data.startswith(...)`, `set_logo` first, then the parse. */
  function Decode(data: string): Option<Callback>
  {
    if StartsWith(data, LOGO_PREFIX) then
      match LogoValue(data)
      case None => None
      case Some(b) => Some(SetLogo(b))
    else if StartsWith(data, LIMIT_PREFIX) then
      match LimitValue(data)
      case None => None
      case Some(n) => Some(SetLimit(n))
    else None
  }

  /** The settings change a callback applies through `update_settings`. */
  function PatchOf(cb: Callback): Patch
  {
    match cb
    case SetLogo(b) => Patch(Some(b), None)
    case SetLimit(n) => Patch(None, Some(n))
  }

  /** The data of the keyboard's buttons: the logo toggle, then 3, 5 and 10 results. */
  function KeyboardData(showLogo: bool): seq<string>
  {
    [Encode(SetLogo(!showLogo)), Encode(SetLimit(3)), Encode(SetLimit(5)), Encode(SetLimit(10))]
  }

  /** The decimal text of a number holds no colon, so it is one whole field. */
  lemma NoColonInDecimal(n: int)
    ensures ':' !in IntToDecimal(n)
  {
    var s := IntToDecimal(n);
    forall i | 0 <= i < |s|
      ensures s[i] != ':'
    {
      if n < 0 && i > 0 {
        assert s[i] == NatToDecimal(-n)[i - 1];
      }
    }
  }

  /** Every callback decodes back from its own data. */
  lemma DecodeEncode(cb: Callback)
    ensures Decode(Encode(cb)) == Some(cb)
  {
    var data := Encode(cb);
    match cb
    case SetLogo(show) =>
      var v := if show then 1 else 0;
      var text := IntToDecimal(v);
      NoColonInDecimal(v);
      assert data == LOGO_PREFIX + ":" + text;
      assert data[..|LOGO_PREFIX|] == LOGO_PREFIX;
      SecondFieldOf(LOGO_PREFIX, text);
      ParseIntRoundTrip(v);
    case SetLimit(n) =>
      var text := IntToDecimal(n);
      NoColonInDecimal(n);
      assert data == LIMIT_PREFIX + ":" + text;
      assert data[..|LIMIT_PREFIX|] == LIMIT_PREFIX;
      assert data[..|LOGO_PREFIX|] != LOGO_PREFIX by {
        assert data[5] == 'i' && LOGO_PREFIX[5] == 'o';
      }
      SecondFieldOf(LIMIT_PREFIX, text);
      ParseIntRoundTrip(n);
  }

  /** The logo button carries the opposite of the current setting, so
      pressing it and applying its update flips `show_logo` and keeps the limit. */
  lemma {:induction false} LogoButtonToggles(rows: map<int, SettingsRow>, user: int)
    ensures var current := FetchSettings(rows, user);
            var cb := Decode(KeyboardData(current.showLogo)[0]);
            && cb == Some(SetLogo(!current.showLogo))
            && FetchSettings(UpdatedRows(rows, user, PatchOf(cb.value)), user) ==
               Settings(!current.showLogo, current.limit)
  {
    var current := FetchSettings(rows, user);
    DecodeEncode(SetLogo(!current.showLogo));
    FetchAfterUpdate(rows, user, Patch(Some(!current.showLogo), None), user);
  }

  /** Each limit button sets the limit to its own number and keeps `show_logo`. */
  lemma {:induction false} LimitButtonsSetLimit(rows: map<int, SettingsRow>, user: int, showLogo: bool, k: nat)
    requires 1 <= k < 4
    ensures var n := [3, 5, 10][k - 1];
            var cb := Decode(KeyboardData(showLogo)[k]);
            && cb == Some(SetLimit(n))
            && FetchSettings(UpdatedRows(rows, user, PatchOf(cb.value)), user) ==
               Settings(FetchSettings(rows, user).showLogo, n)
  {
    var n := [3, 5, 10][k - 1];
    assert KeyboardData(showLogo)[k] == Encode(SetLimit(n));
    LimitButtonSets(rows, user, n);
  }

  /** The button for limit `n` sets the limit to `n` and keeps `show_logo`. */
  lemma {:induction false} LimitButtonSets(rows: map<int, SettingsRow>, user: int, n: int)
    ensures Decode(Encode(SetLimit(n))) == Some(SetLimit(n))
    ensures FetchSettings(UpdatedRows(rows, user, PatchOf(SetLimit(n))), user) ==
            Settings(FetchSettings(rows, user).showLogo, n)
  {
    DecodeEncode(SetLimit(n));
    FetchAfterUpdate(rows, user, Patch(None, Some(n)), user);
  }
}
