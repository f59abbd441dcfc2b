/** The bot's configuration read from the environment at import time (bot.py:24-30,
    bot.py:58-62): the admin id list, the channel id and the database URL. */
module BotConfig {
  import opened Common
  import opened Text

  // ---------------------------------------------------------------------------
  // ADMIN_USER_IDS

  /** What one comma-separated token contributes: its value when, stripped of
      whitespace, it is a non-empty run of digits; nothing otherwise. */
  function TokenIds(token: string): (ids: seq<int>)
    ensures |ids| <= 1
    ensures |ids| == 1 <==> IsDigits(Strip(token))
    ensures |ids| == 1 ==> ids[0] == DigitsValue(Strip(token))
  {
    var t := Strip(token);
    if IsDigits(t) then [DigitsValue(t) as int] else []
  }

  /** The admin ids named by a list of tokens, each in its token's position. */
  function AdminIdsFromTokens(tokens: seq<string>): (ids: seq<int>)
    ensures |ids| <= |tokens|
    ensures forall k :: 0 <= k < |ids| ==> ids[k] >= 0
  {
    if tokens == [] then [] else TokenIds(tokens[0]) + AdminIdsFromTokens(tokens[1..])
  }

  /** `ADMIN_USER_IDS`: the variable (unset reads as `""`) split at commas. */
  function ParseAdminIds(env: Option<string>): (ids: seq<int>)
    ensures env.GetOr("") == "" ==> ids == []
  {
    var tokens := Split(env.GetOr(""), ',');
    assert env.GetOr("") == "" ==> tokens == [""] && TokenIds("") == [];
    AdminIdsFromTokens(tokens)
  }

  /** The ids of consecutive stretches of tokens come out consecutively: order is kept
      and no token affects another. */
  lemma {:induction false} AdminIdsConcat(a: seq<string>, b: seq<string>)
    ensures AdminIdsFromTokens(a + b) == AdminIdsFromTokens(a) + AdminIdsFromTokens(b)
  {
    if a != [] {
      assert (a + b)[0] == a[0] && (a + b)[1..] == a[1..] + b;
      AdminIdsConcat(a[1..], b);
      var head, rest, tail := TokenIds(a[0]), AdminIdsFromTokens(a[1..]), AdminIdsFromTokens(b);
      assert AdminIdsFromTokens(a + b) == head + (rest + tail);
      assert AdminIdsFromTokens(a) == head + rest;
      assert head + (rest + tail) == (head + rest) + tail;
    } else {
      assert a + b == b;
    }
  }

  /** A token that is not a digit run after stripping (blank, signed, or holding any
      other character) contributes nothing. */
  lemma AdminIdsDropsToken(a: seq<string>, t: string, b: seq<string>)
    requires !IsDigits(Strip(t))
    ensures AdminIdsFromTokens(a + [t] + b) == AdminIdsFromTokens(a) + AdminIdsFromTokens(b)
  {
    var none := TokenIds(t);
    assert |none| == 0;
    assert AdminIdsFromTokens([t]) == none + AdminIdsFromTokens([t][1..]);
    assert AdminIdsFromTokens([t]) == [];
    AdminIdsConcat(a + [t], b);
    AdminIdsConcat(a, [t]);
    assert AdminIdsFromTokens(a + [t]) == AdminIdsFromTokens(a);
  }

  function Decimals(ids: seq<nat>): (tokens: seq<string>)
    ensures |tokens| == |ids|
    ensures forall k :: 0 <= k < |ids| ==> tokens[k] == NatToString(ids[k])
  {
    if ids == [] then [] else [NatToString(ids[0])] + Decimals(ids[1..])
  }

  /** Writing ids as `"1,22,333"` and parsing the variable gives exactly those ids back. */
  lemma {:induction false} AdminIdsRoundTrip(ids: seq<nat>)
    requires |ids| >= 1
    ensures ParseAdminIds(Some(Join(Decimals(ids), ','))) == ids
  {
    var tokens := Decimals(ids);
    forall k | 0 <= k < |tokens|
      ensures ',' !in tokens[k]
    {
      assert IsDigits(tokens[k]);
    }
    SplitJoin(tokens, ',');
    DecimalTokensParse(ids);
  }

  lemma {:induction false} DecimalTokensParse(ids: seq<nat>)
    ensures AdminIdsFromTokens(Decimals(ids)) == ids
  {
    if ids != [] {
      var t := NatToString(ids[0]);
      StripKeeps(t);
      DigitsValueOfNatToString(ids[0]);
      assert TokenIds(t) == [ids[0]];
      DecimalTokensParse(ids[1..]);
      assert Decimals(ids)[1..] == Decimals(ids[1..]);
      assert [ids[0]] + ids[1..] == ids;
    }
  }

  /** `user_id in ADMIN_USER_IDS` (bot.py:283). */
  predicate IsAdmin(userId: int, adminIds: seq<int>) {
    userId in adminIds
  }

  // ---------------------------------------------------------------------------
  // TELEGRAM_CHANNEL_ID

  /** `int(os.environ.get("TELEGRAM_CHANNEL_ID", 0))`: an unset variable gives 0; a value
      `int()` refuses raises at import, which `None` stands for here. */
  function ChannelId(env: Option<string>): (id: Option<int>)
    ensures env.None? ==> id == Some(0)
  {
    match env
    case None => Some(0)
    case Some(s) => ParseInt(s)
  }

  /** Every integer written in decimal, negative channel ids included, is read back. */
  lemma ChannelIdRoundTrip(i: int)
    ensures ChannelId(Some(IntToString(i))) == Some(i)
  {
    IntToStringRoundTrip(i);
  }

  // ---------------------------------------------------------------------------
  // DATABASE_URL

  const LegacyScheme: string := "postgres://"
  const EngineScheme: string := "postgresql://"

  /** The URL handed to `create_engine`: a leading `postgres://` is rewritten once to
      `postgresql://`; any other URL is used as given. */
  function EngineUrl(url: string): (r: string)
    ensures StartsWith(url, LegacyScheme) ==> r == EngineScheme + url[|LegacyScheme|..]
    ensures !StartsWith(url, LegacyScheme) ==> r == url
  {
    if StartsWith(url, LegacyScheme) then ReplaceFirst(url, LegacyScheme, EngineScheme) else url
  }

  /** The rewrite never leaves the legacy scheme behind, so applying it twice is
      applying it once. */
  lemma EngineUrlIdempotent(url: string)
    ensures !StartsWith(EngineUrl(url), LegacyScheme)
    ensures EngineUrl(EngineUrl(url)) == EngineUrl(url)
  {
    var r := EngineUrl(url);
    if StartsWith(url, LegacyScheme) {
      assert r[8] == 'q' && LegacyScheme[8] == ':';
    }
  }

  /** `if DATABASE_URL:`: no URL reaches `create_engine` when the variable is unset or
      empty; otherwise the rewritten URL does. An engine or `create_all` that then
      raises also leaves no session factory, which the handlers see as a missing
      session (`session == null`). */
  function DatabaseUrl(env: Option<string>): (r: Option<string>)
    ensures r.None? <==> env.GetOr("") == ""
    ensures env.Some? && env.value != "" ==> r == Some(EngineUrl(env.value))
  {
    match env
    case None => None
    case Some(s) => if s == "" then None else Some(EngineUrl(s))
  }
}
