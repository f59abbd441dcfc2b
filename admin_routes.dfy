/** The admin dashboard's rules (app/routes/admin.py): banning and unbanning a user,
    the settings form, and who a broadcast goes to. Each route runs in one database
    session whose commit may raise; a raised commit is rolled back, so the tables keep
    their old contents. The flashed texts are reduced to their category, and the
    redirects and templates are left out. */
module AdminRoutes {
  import opened Common
  import opened Text
  import opened WebStore

  /** The category of the message a route flashes. */
  datatype Category = Success | Danger | Warning

  /** `user.username or user.telegram_user_id`: how the success message names a user. */
  function DisplayName(u: WebUser): string {
    if u.username.Some? && u.username.value != "" then u.username.value else IntToString(u.telegramUserId)
  }

  /** A user with a non-empty username is named by it; any other user by their Telegram
      id in decimal, which reads back as that id. */
  lemma DisplayNameFallsBack(u: WebUser)
    ensures u.username.Some? && u.username.value != "" ==> DisplayName(u) == u.username.value
    ensures u.username.None? || u.username == Some("") ==> ParseInt(DisplayName(u)) == Some(u.telegramUserId)
  {
    IntToStringRoundTrip(u.telegramUserId);
  }

  // ---------------------------------------------------------------------------
  // Ban and unban

  /** The `users` table once a ban of the user with primary key `id` is committed. */
  function Banned(users: map<int, WebUser>, id: int): map<int, WebUser> {
    if id in users then users[id := users[id].(isBanned := true)] else users
  }

  /** The `users` table once an unban of the user with primary key `id` is committed. */
  function Unbanned(users: map<int, WebUser>, id: int): map<int, WebUser> {
    if id in users then users[id := users[id].(isBanned := false, banReason := None)] else users
  }

  /** A ban sets the flag of that one user and nothing else: the reason, the other
      fields and every other user stay as they were, and an unknown id changes nothing. */
  lemma BanOnlySetsFlag(users: map<int, WebUser>, id: int)
    ensures var r := Banned(users, id);
      && r.Keys == users.Keys
      && (forall k :: k in users && k != id ==> r[k] == users[k])
      && (id in users ==>
            && r[id].isBanned
            && r[id].banReason == users[id].banReason
            && r[id].(isBanned := users[id].isBanned) == users[id])
      && (id !in users ==> r == users)
  {
  }

  /** Unbanning twice is unbanning once, and a ban followed by an unban leaves the
      table as the unban alone would: the earlier ban and its reason are forgotten. */
  lemma UnbanIdempotent(users: map<int, WebUser>, id: int)
    ensures Unbanned(Unbanned(users, id), id) == Unbanned(users, id)
    ensures Unbanned(Banned(users, id), id) == Unbanned(users, id)
    ensures id in users ==> !Unbanned(users, id)[id].isBanned && Unbanned(users, id)[id].banReason.None?
  {
    if id in users {
      var u := users[id];
      assert Banned(users, id)[id].(isBanned := false, banReason := None) == u.(isBanned := false, banReason := None);
    }
  }

  /** `ban_user` (app/routes/admin.py:25-38). The user is looked up before the `try`, so a
      raising lookup leaves the route unhandled: no message is flashed (`flash` is
      `None`) and the tables stay as they were. */
  method BanUser(store: Store, id: int, lookupFails: bool, commitFails: bool)
    returns (flash: Option<Category>, named: Option<string>)
    modifies store
    ensures flash == if lookupFails then None
      else if id !in old(store.users) then Some(Warning)
      else if commitFails then Some(Danger) else Some(Success)
    ensures named == if flash == Some(Success) then Some(DisplayName(old(store.users)[id])) else None
    ensures store.users == if flash == Some(Success) then Banned(old(store.users), id) else old(store.users)
    ensures store.settings == old(store.settings) && store.downloads == old(store.downloads)
  {
    named := None;
    if lookupFails {
      flash := None;
      return;
    }
    if id !in store.users {
      flash := Some(Warning);
      return;
    }
    var user := store.users[id];
    var pending := store.users[id := user.(isBanned := true)];
    if commitFails {
      flash := Some(Danger);
    } else {
      store.users := pending;
      flash, named := Some(Success), Some(DisplayName(user));
    }
  }

  /** `unban_user` (app/routes/admin.py:42-55). The user is looked up before the `try`, so a
      raising lookup leaves the route unhandled: no message is flashed (`flash` is
      `None`) and the tables stay as they were. */
  method UnbanUser(store: Store, id: int, lookupFails: bool, commitFails: bool)
    returns (flash: Option<Category>, named: Option<string>)
    modifies store
    ensures flash == if lookupFails then None
      else if id !in old(store.users) then Some(Warning)
      else if commitFails then Some(Danger) else Some(Success)
    ensures named == if flash == Some(Success) then Some(DisplayName(old(store.users)[id])) else None
    ensures store.users == if flash == Some(Success) then Unbanned(old(store.users), id) else old(store.users)
    ensures store.settings == old(store.settings) && store.downloads == old(store.downloads)
  {
    named := None;
    if lookupFails {
      flash := None;
      return;
    }
    if id !in store.users {
      flash := Some(Warning);
      return;
    }
    var user := store.users[id];
    var pending := store.users[id := user.(isBanned := false, banReason := None)];
    if commitFails {
      flash := Some(Danger);
    } else {
      store.users := pending;
      flash, named := Some(Success), Some(DisplayName(user));
    }
  }

  // ---------------------------------------------------------------------------
  // Settings

  /** The keys the settings form reads and the settings page shows. */
  const SettingKeys: seq<string> :=
    ["telegram_channel_url", "tiktok_profile_url", "bot_username", WarningTextKey, WarningColorKey]

  /** One key of a settings POST: a key the form does not carry is skipped; otherwise an
      existing row takes the value and the time, and a missing row is created with them. */
  function Assigned(settings: map<string, SettingRow>, form: map<string, string>, key: string, now: Timestamp)
    : map<string, SettingRow>
  {
    if key !in form then settings
    else if key in settings then settings[key := settings[key].(value := Some(form[key]), lastUpdatedAt := Some(now))]
    else settings[key := SettingRow(Some(form[key]), None, Some(now))]
  }

  /** The keys `keys` of a settings POST, in order. */
  function Applied(settings: map<string, SettingRow>, form: map<string, string>, keys: seq<string>, now: Timestamp)
    : map<string, SettingRow>
    decreases |keys|
  {
    if keys == [] then settings
    else Assigned(Applied(settings, form, keys[..|keys| - 1], now), form, keys[|keys| - 1], now)
  }

  /** One key's step: only that key's row can change, and only when the form carries it. */
  lemma AssignedSpec(settings: map<string, SettingRow>, form: map<string, string>, key: string, now: Timestamp)
    ensures var r := Assigned(settings, form, key, now);
      && r.Keys == settings.Keys + (if key in form then {key} else {})
      && (forall k :: k in settings && (k != key || k !in form) ==> r[k] == settings[k])
      && (key in form ==>
            && r[key].value == Some(form[key])
            && r[key].lastUpdatedAt == Some(now)
            && r[key].description == (if key in settings then settings[key].description else None))
  {
  }

  /** After a POST over `keys`, every listed key the form carries holds the submitted
      value and the time of the request (an existing row keeps its description); every
      other row is as it was, and no row appears for a key that is unlisted or absent
      from the form. */
  lemma {:induction false} AppliedSpec(settings: map<string, SettingRow>, form: map<string, string>,
                                       keys: seq<string>, now: Timestamp)
    ensures var r := Applied(settings, form, keys, now);
      && r.Keys == settings.Keys + (set k | k in keys && k in form)
      && (forall k :: k in settings && (k !in keys || k !in form) ==> r[k] == settings[k])
      && (forall k :: k in keys && k in form ==>
            && r[k].value == Some(form[k])
            && r[k].lastUpdatedAt == Some(now)
            && r[k].description == (if k in settings then settings[k].description else None))
  {
    if keys != [] {
      var n := |keys| - 1;
      var front := keys[..n];
      AppliedSpec(settings, form, front, now);
      assert forall k :: k in keys <==> k in front || k == keys[n] by {
        assert keys == front + [keys[n]];
      }
      AssignedSpec(Applied(settings, form, front, now), form, keys[n], now);
    }
  }

  /** The settings form's POST (app/routes/admin.py:66-102): all five keys are written
      in one commit, or none is. */
  method UpdateSettings(store: Store, form: map<string, string>, now: Timestamp, commitFails: bool)
    returns (flash: Category)
    modifies store
    ensures flash == if commitFails then Danger else Success
    ensures store.settings == if commitFails then old(store.settings) else Applied(old(store.settings), form, SettingKeys, now)
    ensures store.users == old(store.users) && store.downloads == old(store.downloads)
  {
    var pending := store.settings;
    var i := 0;
    while i < |SettingKeys|
      invariant 0 <= i <= |SettingKeys|
      invariant pending == Applied(store.settings, form, SettingKeys[..i], now)
    {
      var key := SettingKeys[i];
      if key in form {
        var value := form[key];
        if key in pending {
          pending := pending[key := pending[key].(value := Some(value), lastUpdatedAt := Some(now))];
        } else {
          pending := pending[key := SettingRow(Some(value), None, Some(now))];
        }
      }
      assert SettingKeys[..i + 1][..i] == SettingKeys[..i];
      i := i + 1;
    }
    assert SettingKeys[..i] == SettingKeys;
    if commitFails {
      flash := Danger;
    } else {
      store.settings := pending;
      flash := Success;
    }
  }

  /** What the settings page shows for a key without a row. */
  function DefaultFor(key: string): string {
    if key == WarningTextKey then DefaultWarningText
    else if key == WarningColorKey then DefaultWarningColor
    else ""
  }

  /** What the settings page shows for `key`: the stored value (which may be null), or
      the key's default when there is no row. */
  function Shown(settings: map<string, SettingRow>, key: string): Option<string> {
    if key in settings then settings[key].value else Some(DefaultFor(key))
  }

  /** The settings page's GET (app/routes/admin.py:104-131): every listed key with its
      stored value or its default, or nothing at all when a query raises. */
  method LoadSettings(store: Store, queryFails: bool) returns (data: map<string, Option<string>>, flash: Option<Category>)
    ensures queryFails ==> data == map[] && flash == Some(Danger)
    ensures !queryFails ==>
      && flash.None?
      && data.Keys == set k | k in SettingKeys
      && (forall k :: k in SettingKeys ==> k in data && data[k] == Shown(store.settings, k))
    ensures !queryFails && WarningTextKey !in store.settings ==>
      WarningTextKey in data && data[WarningTextKey] == Some(DefaultWarningText)
    ensures !queryFails && WarningColorKey !in store.settings ==>
      WarningColorKey in data && data[WarningColorKey] == Some(DefaultWarningColor)
    ensures !queryFails && "bot_username" !in store.settings ==>
      "bot_username" in data && data["bot_username"] == Some("")
  {
    if queryFails {
      return map[], Some(Danger);
    }
    data, flash := map[], None;
    var i := 0;
    while i < |SettingKeys|
      invariant 0 <= i <= |SettingKeys|
      invariant data.Keys == set k | k in SettingKeys[..i]
      invariant forall k :: k in data ==> data[k] == Shown(store.settings, k)
    {
      var key := SettingKeys[i];
      if key in store.settings {
        data := data[key := store.settings[key].value];
      } else if key == WarningTextKey {
        data := data[key := Some(DefaultWarningText)];
      } else if key == WarningColorKey {
        data := data[key := Some(DefaultWarningColor)];
      } else {
        data := data[key := Some("")];
      }
      assert SettingKeys[..i + 1] == SettingKeys[..i] + [key];
      i := i + 1;
    }
    assert SettingKeys[..i] == SettingKeys;
    assert WarningTextKey == SettingKeys[3] && WarningColorKey == SettingKeys[4] && "bot_username" == SettingKeys[2];
  }

  /** The settings page shows what the last committed POST submitted for each key the
      form carried, and what it showed before for every other key. */
  lemma SettingsReadBack(settings: map<string, SettingRow>, form: map<string, string>, now: Timestamp, key: string)
    requires key in SettingKeys
    ensures key in form ==> Shown(Applied(settings, form, SettingKeys, now), key) == Some(form[key])
    ensures key !in form ==> Shown(Applied(settings, form, SettingKeys, now), key) == Shown(settings, key)
  {
    AppliedSpec(settings, form, SettingKeys, now);
  }

  /** A POST never writes a key outside the list, whatever else the form carries. */
  lemma OnlyListedKeysWritten(settings: map<string, SettingRow>, form: map<string, string>, now: Timestamp, key: string)
    requires key !in SettingKeys
    ensures var r := Applied(settings, form, SettingKeys, now);
      (key in r <==> key in settings) && (key in settings ==> r[key] == settings[key])
  {
    AppliedSpec(settings, form, SettingKeys, now);
  }

  // ---------------------------------------------------------------------------
  // Broadcast

  /** How a broadcast POST ends. */
  datatype BroadcastResult =
    | EmptyMessage                // no message text
    | MissingToken                // no bot token configured
    | NoRecipients                // nobody selected
    | Started(sentCount: nat)     // one send started per selected user
    | BroadcastFailed             // the recipient query raised

  function FlashOf(r: BroadcastResult): Category {
    match r
    case EmptyMessage => Warning
    case MissingToken => Danger
    case NoRecipients => Warning
    case Started(_) => Success
    case BroadcastFailed => Danger
  }

  /** Python's `not value` on a form field or configuration entry. */
  predicate Blank(v: Option<string>) {
    v.None? || v.value == ""
  }

  /** The users the target `"all"` selects: every user that is not banned. */
  function Recipients(users: map<int, WebUser>): set<int> {
    set id | id in users && !users[id].isBanned
  }

  /** The broadcast POST (app/routes/admin.py:156-212) without the sends themselves:
      `threads` holds the primary keys of the users a send was started for. */
  method Broadcast(store: Store, target: Option<string>, text: Option<string>, token: Option<string>, queryFails: bool)
    returns (result: BroadcastResult, threads: set<int>)
    ensures Blank(text) ==> result == EmptyMessage
    ensures !Blank(text) && Blank(token) ==> result == MissingToken
    ensures !Blank(text) && !Blank(token) ==>
      result ==
        if target != Some("all") then NoRecipients
        else if queryFails then BroadcastFailed
        else if Recipients(store.users) == {} then NoRecipients
        else Started(|Recipients(store.users)|)
    ensures threads == if result.Started? then Recipients(store.users) else {}
  {
    threads := {};
    if Blank(text) {
      return EmptyMessage, threads;
    }
    if Blank(token) {
      return MissingToken, threads;
    }
    var selected: set<int> := {};
    if target == Some("all") {
      if queryFails {
        return BroadcastFailed, threads;
      }
      selected := set id | id in store.users && !store.users[id].isBanned;
    }
    if selected == {} {
      return NoRecipients, threads;
    }
    var sentCount := 0;
    var remaining := selected;
    while remaining != {}
      invariant threads !! remaining && threads + remaining == selected
      invariant sentCount == |threads|
      decreases |remaining|
    {
      assert exists x :: x in remaining by {
        if forall x :: x !in remaining {
          assert false;
        }
      }
      var id :| id in remaining;
      threads, remaining := threads + {id}, remaining - {id};
      sentCount := sentCount + 1;
    }
    result := Started(sentCount);
  }

  /** A ban takes the user out of every later broadcast to `"all"` and an unban puts
      them back; nobody else's place changes. */
  lemma BanExcludesFromBroadcast(users: map<int, WebUser>, id: int)
    requires id in users
    ensures Recipients(Banned(users, id)) == Recipients(users) - {id}
    ensures Recipients(Unbanned(users, id)) == Recipients(users) + {id}
  {
    var b := Banned(users, id);
    var u := Unbanned(users, id);
    assert forall k :: k in Recipients(b) <==> k in Recipients(users) && k != id;
    assert forall k :: k in Recipients(u) <==> k in Recipients(users) || k == id;
  }
}
