/** The public statistics behind the landing page (app/routes/main.py): the visitor
    counter kept as a decimal string in `settings`, the row counts, the warning banner
    and the JSON document `/api/stats` serves. */
module MainRoutes {
  import opened Common
  import opened Text
  import opened Json
  import opened WebStore
  import AdminRoutes

  const VisitorKey: string := "visitor_count"

  /** The three figures `get_stats_from_db` returns: numbers, or the string `"N/A"`. */
  datatype Stats = Stats(visitors: Json, botUsers: Json, botDownloads: Json)

  const NotAvailable: Json := JStr("N/A")
  const Unavailable: Stats := Stats(NotAvailable, NotAvailable, NotAvailable)

  // ---------------------------------------------------------------------------
  // The visitor counter

  /** The count a visit reports: one more than the stored number, 1 when there is no
      counter row yet, and nothing when `int()` raises on the stored value (a null
      value, or text that is not a number). */
  function NextVisitors(settings: map<string, SettingRow>): Option<int> {
    if VisitorKey !in settings then Some(1)
    else
      match settings[VisitorKey].value
      case None => None
      case Some(text) =>
        match ParseInt(text)
        case None => None
        case Some(n) => Some(n + 1)
  }

  /** The `settings` table once a visit reporting `count` is committed: an existing
      counter row holds `str(count)`, a missing one is created holding `"1"`. */
  function Visited(settings: map<string, SettingRow>, count: int): map<string, SettingRow> {
    if VisitorKey in settings then settings[VisitorKey := settings[VisitorKey].(value := Some(IntToString(count)))]
    else settings[VisitorKey := SettingRow(Some("1"), None, None)]
  }

  /** What `get_stats_from_db` reports for a database with these tables; `fails` stands
      for any query or the commit raising. */
  function StatsFor(settings: map<string, SettingRow>, users: map<int, WebUser>, downloads: seq<DownloadRow>,
                    fails: bool): Stats
  {
    match NextVisitors(settings)
    case None => Unavailable
    case Some(count) => if fails then Unavailable else Stats(JNum(count), JNum(|users|), JNum(|downloads|))
  }

  /** `get_stats_from_db` (app/routes/main.py:15-57): count the visit, read the two row
      counts and commit; any exception rolls the counter back and turns all three
      figures into `"N/A"`. */
  method GetStatsFromDb(store: Store, storageFails: bool) returns (stats: Stats)
    modifies store
    ensures stats == StatsFor(old(store.settings), old(store.users), old(store.downloads), storageFails)
    ensures store.settings ==
      if stats.visitors.JNum? then Visited(old(store.settings), stats.visitors.n) else old(store.settings)
    ensures store.users == old(store.users) && store.downloads == old(store.downloads)
  {
    var pending := store.settings;
    var visitors: int;
    if VisitorKey in store.settings {
      var row := store.settings[VisitorKey];
      var parsed := if row.value.Some? then ParseInt(row.value.value) else None;
      if parsed.None? {
        return Unavailable;
      }
      visitors := parsed.value + 1;
      pending := pending[VisitorKey := row.(value := Some(IntToString(visitors)))];
    } else {
      pending := pending[VisitorKey := SettingRow(Some("1"), None, None)];
      visitors := 1;
    }
    var users := |store.users|;
    var downloads := |store.downloads|;
    if storageFails {
      return Unavailable;
    }
    store.settings := pending;
    stats := Stats(JNum(visitors), JNum(users), JNum(downloads));
  }

  /** A counter holding `str(n)` reports `n + 1`. */
  lemma StoredCountAdvances(settings: map<string, SettingRow>, n: int)
    requires VisitorKey in settings && settings[VisitorKey].value == Some(IntToString(n))
    ensures NextVisitors(settings) == Some(n + 1)
  {
    IntToStringRoundTrip(n);
  }

  /** Whatever a committed visit reports is what the counter then holds, as a decimal
      string (`"1"` for the row a first visit creates), so the next visit reports one
      more. */
  lemma CounterCountsVisits(settings: map<string, SettingRow>)
    requires NextVisitors(settings).Some?
    ensures var count := NextVisitors(settings).value;
      && Visited(settings, count)[VisitorKey].value == Some(IntToString(count))
      && NextVisitors(Visited(settings, count)) == Some(count + 1)
  {
    var count := NextVisitors(settings).value;
    var after := Visited(settings, count);
    if VisitorKey !in settings {
      assert count == 1;
      assert IntToString(1) == "1";
    }
    StoredCountAdvances(after, count);
  }

  /** A counter that does not hold a number (or holds null) is never advanced: the
      figures are unavailable and the table is left alone. */
  lemma UnreadableCounterIsKept(settings: map<string, SettingRow>, users: map<int, WebUser>,
                                downloads: seq<DownloadRow>, fails: bool)
    requires VisitorKey in settings
    requires settings[VisitorKey].value.None? || ParseInt(settings[VisitorKey].value.value).None?
    ensures StatsFor(settings, users, downloads, fails) == Unavailable
  {
  }

  // ---------------------------------------------------------------------------
  // The warning banner

  /** The warning's text and colour; a row may hold a null value. */
  datatype Warning = Warning(text: Option<string>, color: Option<string>)

  /** `get_warning_message_from_db` (app/routes/main.py:60-75): each part falls back to
      its own default when its row is missing, and both do when a query raises. */
  function WarningFrom(settings: map<string, SettingRow>, queryFails: bool): (w: Warning)
    ensures queryFails ==> w == Warning(Some(DefaultWarningText), Some(DefaultWarningColor))
  {
    if queryFails then Warning(Some(DefaultWarningText), Some(DefaultWarningColor))
    else
      Warning(
        if WarningTextKey in settings then settings[WarningTextKey].value else Some(DefaultWarningText),
        if WarningColorKey in settings then settings[WarningColorKey].value else Some(DefaultWarningColor))
  }

  /** The banner shows what the admin settings page shows for the same two keys,
      defaults included, so a committed settings POST is what the banner serves next. */
  lemma WarningMatchesSettingsPage(settings: map<string, SettingRow>, form: map<string, string>, now: Timestamp)
    ensures WarningFrom(settings, false) ==
      Warning(AdminRoutes.Shown(settings, WarningTextKey), AdminRoutes.Shown(settings, WarningColorKey))
    ensures var after := WarningFrom(AdminRoutes.Applied(settings, form, AdminRoutes.SettingKeys, now), false);
      && (WarningTextKey in form ==> after.text == Some(form[WarningTextKey]))
      && (WarningColorKey in form ==> after.color == Some(form[WarningColorKey]))
  {
    assert WarningTextKey == AdminRoutes.SettingKeys[3] && WarningColorKey == AdminRoutes.SettingKeys[4];
    AdminRoutes.SettingsReadBack(settings, form, now, WarningTextKey);
    AdminRoutes.SettingsReadBack(settings, form, now, WarningColorKey);
  }

  /** The two parts fall back independently: rewriting or deleting the text row never
      changes the colour, and the other way round. */
  lemma WarningPartsIndependent(settings: map<string, SettingRow>, row: SettingRow)
    ensures WarningFrom(settings[WarningTextKey := row], false).color == WarningFrom(settings, false).color
    ensures WarningFrom(settings - {WarningTextKey}, false).color == WarningFrom(settings, false).color
    ensures WarningFrom(settings[WarningColorKey := row], false).text == WarningFrom(settings, false).text
    ensures WarningFrom(settings - {WarningColorKey}, false).text == WarningFrom(settings, false).text
  {
    assert WarningTextKey != WarningColorKey by {
      assert WarningTextKey[16] != WarningColorKey[16];
    }
  }

  /** Counting a visit touches no row but the counter, so the banner the same request
      serves afterwards is the one stored before it. */
  lemma VisitKeepsWarning(settings: map<string, SettingRow>, count: int, queryFails: bool)
    ensures WarningFrom(Visited(settings, count), queryFails) == WarningFrom(settings, queryFails)
  {
    assert VisitorKey != WarningTextKey by {
      assert VisitorKey[0] != WarningTextKey[0];
    }
    assert VisitorKey != WarningColorKey by {
      assert VisitorKey[0] != WarningColorKey[0];
    }
  }

  // ---------------------------------------------------------------------------
  // The API document

  function OptionalText(o: Option<string>): Json {
    if o.Some? then JStr(o.value) else JNull
  }

  /** The object `api_stats` hands to `jsonify` (app/routes/main.py:89-96). */
  function Payload(stats: Stats, warning: Warning, start: Timestamp): Json {
    JObj(map[
      "visitors" := stats.visitors,
      "bot_users" := stats.botUsers,
      "bot_downloads" := stats.botDownloads,
      "warning_message" := OptionalText(warning.text),
      "warning_color" := OptionalText(warning.color),
      "server_start_timestamp" := JNum(start)])
  }

  /** Every figure reaches the client unchanged under its own key. */
  lemma PayloadFields(stats: Stats, warning: Warning, start: Timestamp)
    ensures var p := Payload(stats, warning, start);
      && Field(p, "visitors") == Some(stats.visitors)
      && Field(p, "bot_users") == Some(stats.botUsers)
      && Field(p, "bot_downloads") == Some(stats.botDownloads)
      && Field(p, "warning_message") == Some(OptionalText(warning.text))
      && Field(p, "warning_color") == Some(OptionalText(warning.color))
      && Field(p, "server_start_timestamp") == Some(JNum(start))
      && |p.fields| == 6
  {
    var p := Payload(stats, warning, start);
    assert "visitors"[0] != "bot_users"[0];
    assert "bot_users"[4] != "bot_downloads"[4];
    assert "warning_message"[8] != "warning_color"[8];
    assert p.fields.Keys ==
      {"visitors", "bot_users", "bot_downloads", "warning_message", "warning_color", "server_start_timestamp"};
  }

  /** `api_stats` (app/routes/main.py:82-96): the statistics (counting this visit), then
      the warning read in the same session, then the server's start time. */
  method ApiStats(store: Store, storageFails: bool, warningFails: bool, start: Timestamp) returns (payload: Json)
    modifies store
    ensures payload ==
      Payload(StatsFor(old(store.settings), old(store.users), old(store.downloads), storageFails),
              WarningFrom(old(store.settings), warningFails), start)
    ensures var stats := StatsFor(old(store.settings), old(store.users), old(store.downloads), storageFails);
      store.settings == if stats.visitors.JNum? then Visited(old(store.settings), stats.visitors.n) else old(store.settings)
    ensures store.users == old(store.users) && store.downloads == old(store.downloads)
  {
    var stats := GetStatsFromDb(store, storageFails);
    if stats.visitors.JNum? {
      VisitKeepsWarning(old(store.settings), stats.visitors.n, warningFails);
    }
    var warning := WarningFrom(store.settings, warningFails);
    payload := Payload(stats, warning, start);
  }
}
